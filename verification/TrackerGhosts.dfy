/** How a missing object is shown until it is dropped: how bright, and where. */
module TrackerGhosts {
  import opened Domain
  import opened TrackerFilters
  import opened TrackerState
  import opened TrackerRuns
  import opened TrackerLifecycle
  import opened TrackerFading

  /** The latest frame omits the object, the first to do so came at `since`. */
  ghost predicate Absent(s: Tracker, id: int, since: int) {
    LifeSound(s) && Drawable(s) && Lookup(s.life.missingSince, id) == Some(since)
  }

  function Age(since: int, now: int): int { if now > since then now - since else 0 }

  /** Until the grace time is over an object stays as bright as it was; then it is no brighter than the
      share of the fade-out that is left. */
  function Dimmed(c: Config, opacity: real, age: int): real {
    if age <= c.missingGraceMsec then opacity
    else if age - c.missingGraceMsec >= c.fadeOutMsec then 0.0
    else Min(opacity, (c.missingGraceMsec + c.fadeOutMsec - age) as real / c.fadeOutMsec as real)
  }

  lemma QuotientIs(n: real, d: real, q: real)
    requires d > 0.0 && q * d == n
    ensures q == n / d
  {}

  lemma LeftOver(past: int, whole: int)
    requires 0 < whole && 0 < past
    ensures past < whole ==> Bounded(0.0, past as real / whole as real, 1.0) == past as real / whole as real
                             && 1.0 - past as real / whole as real == (whole - past) as real / whole as real
    ensures past >= whole ==> Bounded(0.0, past as real / whole as real, 1.0) == 1.0
  {
    var q := past as real / whole as real;
    assert q * whole as real == past as real;
    LessIsLeft(0.0, past as real, whole as real);
    if past < whole {
      LessIsLeft(past as real, whole as real, whole as real);
      assert (1.0 - q) * whole as real == (whole - past) as real;
      QuotientIs((whole - past) as real, whole as real, 1.0 - q);
    } else {
      AtLeastOne(past as real, whole as real);
    }
  }

  lemma LessIsLeft(n: real, m: real, whole: real)
    requires whole > 0.0 && 0.0 <= n <= m
    ensures 0.0 <= n / whole <= m / whole
  {}

  lemma MissingIsDimmed(c: Config, d: Display, id: int, age: int)
    requires c.Valid() && OpacitiesSound(d)
    ensures MissingOpacity(c, d, id, age) == Dimmed(c, Get(d.opacities, id, 0.0), age)
  {
    if age > c.missingGraceMsec && c.fadeOutMsec > 0 { LeftOver(age - c.missingGraceMsec, c.fadeOutMsec); }
  }

  lemma DimsFurther(c: Config, opacity: real, age: int, later: int)
    requires c.Valid() && opacity >= 0.0 && 0 <= age <= later
    ensures Dimmed(c, Dimmed(c, opacity, age), later) == Dimmed(c, opacity, later) && Dimmed(c, opacity, age) >= 0.0
  {
    if age > c.missingGraceMsec && age - c.missingGraceMsec < c.fadeOutMsec {
      var end, whole := c.missingGraceMsec + c.fadeOutMsec, c.fadeOutMsec as real;
      LessIsLeft(0.0, (end - age) as real, whole);
      if later < end { LessIsLeft((end - later) as real, (end - age) as real, whole); }
    }
  }

  // ---------- one snapshot ----------

  /** What is shown of the object, and remembered, in one snapshot. */
  lemma ShowsAbsent(c: Config, s: Tracker, id: int, since: int, now: int)
    requires c.Valid() && Absent(s, id, since)
    ensures var p := Picture(c, s, now).missing;
            && (id in p <==> Age(since, now) <= Retention(c))
            && (id in p ==> p[id].opacity == Dimmed(c, Get(s.display.opacities, id, 0.0), Age(since, now))
                            && id in s.life.retained && p[id].position == TargetOf(s.filters, s.life.retained[id]))
  {
    var q := Quiet(s);
    DrawnCurrent(c, q, now);
    var d := LatestDrawing(c, q, now);
    assert Latest(q)[..|Latest(q)|] == Latest(q);
    DrawnElsewhere(c, q, Latest(q), |Latest(q)|, now, id);
    GhostsAre(c, q, d, now, id);
    SameFading(c, s.display, d.display, id, Age(since, now));
    MissingIsDimmed(c, s.display, id, Age(since, now));
    if Age(since, now)
      <= Retention(c) { GhostIs(c, q, d, id, now, Dimmed(c, Get(s.display.opacities, id, 0.0), Age(since, now))); }
  }

  lemma GhostIs(c: Config, s: Tracker, d: Drawing, id: int, now: int, opacity: real)
    requires id in Ghosts(c, s.life, s.filters, d.display, Undrawn(s, d), now) && c.Valid() && OpacitiesSound(s.display)
    requires MissingOpacity(c, d.display, id, MissingAge(s.life, id, now)) == opacity
    requires 0.0 <= opacity <= 1.0
    ensures var g := Ghosts(c, s.life, s.filters, d.display, Undrawn(s, d), now);
            g[id].opacity == opacity && g[id].position == TargetOf(s.filters, s.life.retained[id])
  {}

  /** What a snapshot leaves of it. */
  lemma StaysAbsent(c: Config, s: Tracker, id: int, since: int, now: int)
    requires c.Valid() && Absent(s, id, since) && Age(since, now) <= Retention(c)
    ensures var after := Built(c, s, now);
            && Absent(after, id, since) && id in after.life.retained && id in s.life.retained
            && after.life.retained[id] == s.life.retained[id]
            && Get(after.display.opacities, id, 0.0) == Dimmed(c, Get(s.display.opacities, id, 0.0), Age(since, now))
            && LeavesFilters(s.filters, after.filters, id, now)
  {
    AbsentAfter(c, s, id, since, now);
    DimmedAfter(c, s, id, since, now);
    FiltersLeft(c, s, now, id);
    RetainedLeft(c, s, now, id);
  }

  lemma AbsentAfter(c: Config, s: Tracker, id: int, since: int, now: int)
    requires Absent(s, id, since) && Age(since, now) <= Retention(c)
    ensures Absent(Built(c, s, now), id, since) && id in Built(c, s, now).life.retained && id in s.life.retained
  {
    RenderMissing(c, s, now);
    RenderOpacities(c, s, now);
    RenderLife(c, s, now, id);
    BuiltHistory(c, s, now);
  }

  lemma DimmedAfter(c: Config, s: Tracker, id: int, since: int, now: int)
    requires c.Valid() && Absent(s, id, since) && Age(since, now) <= Retention(c)
    ensures Get(Built(c, s, now).display.opacities, id, 0.0)
         == Dimmed(c, Get(s.display.opacities, id, 0.0), Age(since, now))
  {
    NotDrawn(c, s, now, id);
    LookedFor(c, s, id, since, now, Built(c, s, now).display);
  }

  lemma LookedFor(c: Config, s: Tracker, id: int, since: int, now: int, after: Display)
    requires c.Valid() && Absent(s, id, since) && Age(since, now) <= Retention(c) && Unseen(c, s, now, id, after)
    ensures Get(after.opacities, id, 0.0) == Dimmed(c, Get(s.display.opacities, id, 0.0), Age(since, now))
  {
    MissingIsDimmed(c, s.display, id, Age(since, now));
    assert LooksFor(c, s, Render(now), id);
  }

  // ---------- retained objects are filed under their own id ----------

  ghost predicate Keyed(life: Lifecycle) {
    forall id :: id in life.retained ==> life.retained[id].globalId == id
  }

  lemma {:induction false} SeenKeyed(life: Lifecycle, objects: seq<RiskObject>)
    requires Keyed(life)
    ensures Keyed(Seen(life, objects))
  {
    if objects != [] { SeenKeyed(life, objects[..|objects| - 1]); }
  }

  lemma StepKeyed(h: Hypot, c: Config, s: Tracker, op: Op)
    requires c.Valid() && Keyed(s.life)
    ensures Keyed(Do(h, c, s, op).life)
  {
    if op.Submit? {
      var a := Arrived(s, op.now);
      SeenKeyed(a.life, Kept(a.bounds, op.frame.objects));
    }
  }

  lemma {:induction false} AlwaysKeyed(h: Hypot, c: Config, configured: Option<Rect>, ops: seq<Op>)
    requires c.Valid()
    ensures Keyed(Run(h, c, Fresh(configured), ops).life)
  {
    if ops != [] {
      var n := |ops| - 1;
      AlwaysKeyed(h, c, configured, ops[..n]);
      StepKeyed(h, c, Run(h, c, Fresh(configured), ops[..n]), ops[n]);
    }
  }

  predicate LeavesFilters(before: Filters, after: Filters, id: int, now: int) {
    if Stale(before, id, now) then id !in after.positions && id !in after.times
    else Lookup(after.positions, id) == Lookup(before.positions, id)
         && Lookup(after.times, id) == Lookup(before.times, id)
  }

  lemma FiltersLeft(c: Config, s: Tracker, now: int, id: int)
    requires Drawable(s)
    ensures LeavesFilters(s.filters, Built(c, s, now).filters, id, now)
  {}

  lemma RetainedLeft(c: Config, s: Tracker, now: int, id: int)
    requires id in s.life.retained && id in Built(c, s, now).life.retained
    ensures Built(c, s, now).life.retained[id] == s.life.retained[id]
  {}

  // ---------- until it is dropped ----------

  ghost predicate Rising(times: seq<int>, end: int) {
    && (forall i :: 0 <= i < |times| ==> times[i] <= end)
    && forall i, j :: 0 <= i < j < |times| ==> times[i] <= times[j]
  }

  function LastAge(since: int, times: seq<int>): int { if times == [] then 0 else Age(since, times[|times| - 1]) }

  /** Its filtered position is kept up to 500 ms after its last sample. */
  ghost predicate KeepsPosition(before: Filters, after: Filters, id: int, times: seq<int>) {
    if exists i :: 0 <= i < |times| && Stale(before, id, times[i]) then id !in after.positions && id !in after.times
    else Lookup(after.positions, id) == Lookup(before.positions, id)
         && Lookup(after.times, id) == Lookup(before.times, id)
  }

  lemma {:induction false} AbsentOverRenders(c: Config, s: Tracker, times: seq<int>, end: int, id: int, since: int)
    requires c.Valid() && Absent(s, id, since) && Rising(times, end) && Age(since, end) <= Retention(c)
    ensures var after := Renders(c, s, times);
            && Absent(after, id, since) && id in after.life.retained && id in s.life.retained
            && after.life.retained[id] == s.life.retained[id]
            && Get(after.display.opacities, id, 0.0)
              == Dimmed(c, Get(s.display.opacities, id, 0.0), LastAge(since, times))
            && KeepsPosition(s.filters, after.filters, id, times)
  {
    if times != [] {
      var n := |times| - 1;
      AbsentOverRenders(c, s, times[..n], end, id, since);
      var before := Renders(c, s, times[..n]);
      StaysAbsent(c, before, id, since, times[n]);
      DimsFurther(c, Get(s.display.opacities, id, 0.0), LastAge(since, times[..n]), Age(since, times[n]));
      KeepsOneMore(s.filters, before.filters, Built(c, before, times[n]).filters, id, times);
    }
  }

  lemma KeepsOneMore(f: Filters, before: Filters, after: Filters, id: int, times: seq<int>)
    requires times != [] && KeepsPosition(f, before, id, times[..|times| - 1])
    requires LeavesFilters(before, after, id, times[|times| - 1])
    ensures KeepsPosition(f, after, id, times)
  {
    var n := |times| - 1;
    if i :| 0 <= i < |times| && Stale(f, id, times[i]) {
      if i < n { assert Stale(f, id, times[..n][i]); }
    }
  }

  /** An object that a frame of the run has omitted since `since`, with bounds to draw it in. */
  ghost predicate IsOmitted(s: Tracker, id: int, since: int) {
    Drawable(s) && Lookup(s.life.missingSince, id) == Some(since)
  }

  /** Over every run, on a clock that does not go back from then on: for grace and fade-out together an
      omitted object is shown as missing, as bright as it was left until the grace time is over and then
      evenly darker to nothing. */
  lemma FadesOutSteadily(h: Hypot, c: Config, configured: Option<Rect>, ops: seq<Op>, times: seq<int>, now: int,
                         id: int, since: int)
    requires c.Valid() && IsOmitted(Run(h, c, Fresh(configured), ops), id, since)
    requires Rising(times, now) && Age(since, now) <= Retention(c)
    ensures var s := Run(h, c, Fresh(configured), ops);
            var p := Picture(c, Renders(c, s, times), now).missing;
            id in p && p[id].opacity == Dimmed(c, Get(s.display.opacities, id, 0.0), Age(since, now))
  {
    var s := Run(h, c, Fresh(configured), ops);
    AlwaysLifeSound(h, c, configured, ops);
    AbsentOverRenders(c, s, times, now, id, since);
    ShowsAbsent(c, Renders(c, s, times), id, since, now);
    DimsFurther(c, Get(s.display.opacities, id, 0.0), LastAge(since, times), Age(since, now));
  }

  /** It stays at its filtered position until after a snapshot more than 500 ms after its last sample.
      From then on it is shown where its last frame reported it, unfiltered. */
  lemma MissingStaysUntilStale(h: Hypot, c: Config, configured: Option<Rect>, ops: seq<Op>, times: seq<int>, now: int,
                               id: int, since: int)
    requires c.Valid() && IsOmitted(Run(h, c, Fresh(configured), ops), id, since)
    requires Rising(times, now) && Age(since, now) <= Retention(c)
    requires var f := Run(h, c, Fresh(configured), ops).filters; id in f.positions && id in f.times
    ensures var s := Run(h, c, Fresh(configured), ops);
            var p := Picture(c, Renders(c, s, times), now).missing;
            && id in p && id in s.life.retained
            && p[id].position == if forall i :: 0 <= i < |times| ==> times[i] - s.filters.times[id] <= 500
                                 then s.filters.positions[id] else s.life.retained[id].worldPosition
  {
    var s := Run(h, c, Fresh(configured), ops);
    AlwaysLifeSound(h, c, configured, ops);
    AlwaysKeyed(h, c, configured, ops);
    AbsentOverRenders(c, s, times, now, id, since);
    ShowsAbsent(c, Renders(c, s, times), id, since, now);
    TargetKept(s.filters, Renders(c, s, times).filters, s.life.retained[id], id, times);
  }

  lemma TargetKept(before: Filters, after: Filters, o: RiskObject, id: int, times: seq<int>)
    requires KeepsPosition(before, after, id, times) && id in before.positions && id in before.times
    requires o.globalId == id
    ensures TargetOf(after, o) == if forall i :: 0 <= i < |times| ==> times[i] - before.times[id] <= 500
                                  then before.positions[id] else o.worldPosition
  {
    if i :| 0 <= i < |times| && times[i] - before.times[id] > 500 { assert Stale(before, id, times[i]); }
  }
}
