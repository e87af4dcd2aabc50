/** How bright an object is when it comes onto the map: at once, unless a snapshot has looked for it
    in vain before. */
module TrackerFading {
  import opened Domain
  import opened TrackerFilters
  import opened TrackerBounds
  import opened TrackerState
  import opened TrackerRuns
  import opened TrackerLifecycle

  // ---------- one object in a snapshot ----------

  /** The same is remembered about the object `id`. */
  predicate SameMemory(d: Display, e: Display, id: int) {
    && Lookup(d.opacities, id) == Lookup(e.opacities, id) && Lookup(d.opacityTimes, id) == Lookup(e.opacityTimes, id)
    && (id in d.transitions <==> id in e.transitions)
  }

  lemma {:induction false} DrawnElsewhere(c: Config, s: Tracker, objects: seq<RiskObject>, n: nat, now: int, id: int)
    requires n <= |objects| && id !in Ids(objects[..n])
    ensures SameMemory(s.display, DrawnAll(c, s, objects, n, now).display, id)
  {
    if n > 0 {
      IdsOfPrefix(objects, n);
      DrawnElsewhere(c, s, objects, n - 1, now, id);
    }
  }

  predicate ShowsAt(shown: seq<Shown>, id: int, opacity: real) {
    forall k :: 0 <= k < |shown| && shown[k].id == id ==> shown[k].opacity == opacity
  }

  /** However often a frame holds an object, it is shown with the opacity that follows from what was
      remembered before the snapshot. */
  lemma {:induction false} DrawnOpacity(c: Config, s: Tracker, objects: seq<RiskObject>, n: nat, now: int, id: int)
    requires n <= |objects|
    ensures ShowsAt(DrawnAll(c, s, objects, n, now).objects, id,
                    Bounded(0.0, PresentOpacity(c, s.display, id, now), 1.0))
  {
    if n > 0 {
      DrawnOpacity(c, s, objects, n - 1, now, id);
      NotYetDrawn(c, s, objects, n - 1, now, id);
      DrawnOnce(c, s, objects, DrawnAll(c, s, objects, n - 1, now), objects[n - 1], now, id,
                PresentOpacity(c, s.display, id, now));
    }
  }

  lemma NotYetDrawn(c: Config, s: Tracker, objects: seq<RiskObject>, n: nat, now: int, id: int)
    requires n <= |objects|
    ensures var d := DrawnAll(c, s, objects, n, now);
            id !in d.current ==> PresentOpacity(c, d.display, id, now) == PresentOpacity(c, s.display, id, now)
  {
    DrawnAllListed(c, s, objects, n, now);
    if id !in Ids(objects[..n]) { DrawnElsewhere(c, s, objects, n, now, id); }
  }

  lemma DrawnOnce(c: Config, s: Tracker, objects: seq<RiskObject>, d: Drawing, o: RiskObject, now: int, id: int,
                  opacity: real)
    requires ShowsAt(d.objects, id, Bounded(0.0, opacity, 1.0))
    requires id !in d.current ==> PresentOpacity(c, d.display, id, now) == opacity
    ensures var after :=
      DrawnObserved(c, s.filters, s.previous, s.frameSequence, s.measuredInterval, objects, d, o, now);
            ShowsAt(after.objects, id, Bounded(0.0, opacity, 1.0))
  {}

  /** An object of the latest frame in a snapshot: shown, and with which opacity. */
  lemma ShownOpacity(c: Config, s: Tracker, now: int, id: int) returns (k: nat)
    requires Drawable(s) && id in LatestIds(s) && OpacitiesSound(s.display)
    ensures var shown := Picture(c, s, now).observed;
            k < |shown| && shown[k].id == id && ShowsAt(shown, id, PresentOpacity(c, s.display, id, now))
  {
    var q := Quiet(s);
    DrawnCurrent(c, q, now);
    DrawnOpacity(c, q, Latest(q), |Latest(q)|, now, id);
    PresentOpacityGrows(c, q.display, id, now);
    var d := LatestDrawing(c, q, now);
    assert id in d.current;
    k :| 0 <= k < |d.objects| && d.objects[k].id == id;
  }

  // ---------- what is remembered of an object off the map ----------

  /** A snapshot that looks for a missing object: it is off the map, and its time is not up. */
  predicate LooksFor(c: Config, s: Tracker, op: Op, id: int) {
    op.Render? && Drawable(s) && id in s.life.missingSince && MissingAge(s.life, id, op.now) <= Retention(c)
  }

  /** The time of the last snapshot that looked for an object off the map, since the last reset and
      since the object was last on the map. */
  ghost function SoughtAfter(c: Config, s: Tracker, op: Op, id: int, before: Option<int>): Option<int> {
    if Resets(s, op) || id in s.display.transitions then None else if LooksFor(c, s, op, id) then Some(op.now)
      else before
  }

  ghost function LastSought(h: Hypot, c: Config, s: Tracker, ops: seq<Op>, id: int): Option<int>
    requires c.Valid()
  {
    if ops == [] then None
    else
      var n := |ops| - 1;
      SoughtAfter(c, Run(h, c, s, ops[..n]), ops[n], id, LastSought(h, c, s, ops[..n], id))
  }

  /** Of an object off the map exactly this is remembered: nothing, or that it was invisible when it
      was last looked for. */
  ghost predicate Recalls(d: Display, id: int, sought: Option<int>) {
    id !in d.transitions ==> if sought.None? then id !in d.opacities
                             else Lookup(d.opacities, id) == Some(0.0) && Lookup(d.opacityTimes, id) == sought
  }

  lemma InvisibleStays(c: Config, d: Display, id: int, age: int)
    requires Get(d.opacities, id, 0.0) == 0.0
    ensures MissingOpacity(c, d, id, age) == 0.0
  {}

  /** The cleanup forgets an object only together with its transition. */
  lemma FinishedMemory(c: Config, s: Tracker, d: Drawing, ghosts: map<int, Shown>, now: int, id: int)
    requires id !in d.current
    ensures var before, after := d.display, Finished(c, s, d, ghosts, now).display;
            if id in ghosts then
              && Lookup(after.opacities, id) == Some(MissingOpacity(c, before, id, MissingAge(s.life, id, now)))
              && Lookup(after.opacityTimes, id) == Some(now) && (id in after.transitions <==> id in before.transitions)
            else if id in before.transitions then
              id !in after.transitions && id !in after.opacities
            else SameMemory(before, after, id)
  {}

  lemma FinishedOnMap(c: Config, s: Tracker, d: Drawing, ghosts: map<int, Shown>, now: int, id: int)
    requires id in d.current && id in d.display.transitions
    ensures id in Finished(c, s, d, ghosts, now).display.transitions
  {}

  lemma {:induction false} DrawnOnMap(c: Config, s: Tracker, objects: seq<RiskObject>, n: nat, now: int)
    requires n <= |objects|
    ensures var d := DrawnAll(c, s, objects, n, now); d.current.Keys <= d.display.transitions.Keys
  {
    if n > 0 { DrawnOnMap(c, s, objects, n - 1, now); }
  }

  lemma DrawnStaysOnMap(c: Config, s: Tracker, now: int, id: int)
    requires Drawable(s) && id in LatestIds(s)
    ensures id in Built(c, s, now).display.transitions
  {
    var q := Quiet(s);
    var d := LatestDrawing(c, q, now);
    DrawnCurrent(c, q, now);
    DrawnOnMap(c, q, Latest(q), |Latest(q)|, now);
    assert id in d.current.Keys;
    FinishedOnMap(c, q, d, Ghosts(c, q.life, q.filters, d.display, Undrawn(q, d), now), now, id);
  }

  /** What a snapshot makes of the memory of an object that the latest frame does not hold. */
  ghost predicate Unseen(c: Config, s: Tracker, now: int, id: int, after: Display) {
    if LooksFor(c, s, Render(now), id) then
      && Lookup(after.opacities, id) == Some(MissingOpacity(c, s.display, id, MissingAge(s.life, id, now)))
      && Lookup(after.opacityTimes, id) == Some(now) && (id in after.transitions <==> id in s.display.transitions)
    else if id in s.display.transitions then
      id !in after.transitions && id !in after.opacities
    else SameMemory(s.display, after, id)
  }

  lemma NotDrawn(c: Config, s: Tracker, now: int, id: int)
    requires MissingSound(s) && Drawable(s) && id !in LatestIds(s)
    ensures Unseen(c, s, now, id, Built(c, s, now).display)
  {
    var q := Quiet(s);
    DrawnCurrent(c, q, now);
    assert Latest(q)[..|Latest(q)|] == Latest(q);
    DrawnElsewhere(c, q, Latest(q), |Latest(q)|, now, id);
    var d := LatestDrawing(c, q, now);
    var ghosts := Ghosts(c, q.life, q.filters, d.display, Undrawn(q, d), now);
    GhostsAre(c, q, d, now, id);
    SameFading(c, s.display, d.display, id, MissingAge(s.life, id, now));
    FinishedMemory(c, q, d, ghosts, now, id);
  }

  lemma GhostsAre(c: Config, s: Tracker, d: Drawing, now: int, id: int)
    requires MissingSound(s) && Drawable(s) && d.current.Keys == LatestIds(s)
    ensures id in Ghosts(c, s.life, s.filters, d.display, Undrawn(s, d), now) <==> LooksFor(c, s, Render(now), id)
  {}

  lemma SameFading(c: Config, d: Display, e: Display, id: int, age: int)
    requires SameMemory(d, e, id)
    ensures MissingOpacity(c, d, id, age) == MissingOpacity(c, e, id, age)
  {}

  lemma RenderRecalls(c: Config, s: Tracker, now: int, id: int, sought: Option<int>)
    requires LifeSound(s) && Recalls(s.display, id, sought)
    ensures Recalls(Built(c, s, now).display, id, SoughtAfter(c, s, Render(now), id, sought))
  {
    if !Drawable(s) {
      BuiltHistory(c, s, now);
    } else if id in LatestIds(s) {
      DrawnStaysOnMap(c, s, now, id);
    } else {
      NotDrawn(c, s, now, id);
      UnseenRecalls(c, s, now, id, sought, Built(c, s, now).display);
    }
  }

  lemma UnseenRecalls(c: Config, s: Tracker, now: int, id: int, sought: Option<int>, after: Display)
    requires Unseen(c, s, now, id, after) && Recalls(s.display, id, sought)
    ensures Recalls(after, id, SoughtAfter(c, s, Render(now), id, sought))
  {
    if id !in s.display.transitions { InvisibleStays(c, s.display, id, MissingAge(s.life, id, now)); }
  }

  lemma SubmitDisplay(h: Hypot, c: Config, s: Tracker, frame: Frame, now: int)
    requires c.Valid()
    ensures Submitted(h, c, s, frame, now).0.display == if Resets(s, Submit(frame, now)) then NoDisplay() else s.display
  {}

  lemma StepRecalls(h: Hypot, c: Config, s: Tracker, op: Op, id: int, sought: Option<int>)
    requires c.Valid() && LifeSound(s) && Recalls(s.display, id, sought)
    ensures Recalls(Do(h, c, s, op).display, id, SoughtAfter(c, s, op, id, sought))
  {
    match op
    case Submit(frame, now) => SubmitDisplay(h, c, s, frame, now);
    case Render(now) => RenderRecalls(c, s, now, id, sought);
    case Expire(now, expiry) =>
    case Restart =>
  }

  /** In every run, of every object off the map. */
  lemma {:induction false} AlwaysRecalls(h: Hypot, c: Config, configured: Option<Rect>, ops: seq<Op>, id: int)
    requires c.Valid()
    ensures Recalls(Run(h, c, Fresh(configured), ops).display, id, LastSought(h, c, Fresh(configured), ops, id))
  {
    if ops != [] {
      var n := |ops| - 1;
      var s, before := Fresh(configured), Run(h, c, Fresh(configured), ops[..n]);
      AlwaysRecalls(h, c, configured, ops[..n], id);
      AlwaysLifeSound(h, c, configured, ops[..n]);
      StepRecalls(h, c, before, ops[n], id, LastSought(h, c, s, ops[..n], id));
    }
  }

  // ---------- the return ----------

  /** Milliseconds that one snapshot adds to a fade-in. */
  function CountedTime(before: int, now: int): int {
    if now < before then 0 else if now - before > 100 then 100 else now - before
  }

  lemma AtLeastOneExactly(n: real, d: real)
    requires d > 0.0
    ensures n / d >= 1.0 <==> n >= d
  {}

  lemma FadesIn(c: Config, d: Display, id: int, before: int, now: int)
    requires c.Valid() && Lookup(d.opacities, id) == Some(0.0) && Lookup(d.opacityTimes, id) == Some(before)
    ensures PresentOpacity(c, d, id, now) == 1.0 <==> c.fadeInMsec <= CountedTime(before, now)
  {
    if c.fadeInMsec > 0 { AtLeastOneExactly(CountedTime(before, now) as real, c.fadeInMsec as real); }
  }

  /** The object is shown, and fully bright if and only if no snapshot looked for it in vain, or the
      fade-in is no longer than the time since the last that did, of which at most 100 ms count. */
  predicate BrightExactly(c: Config, p: Snapshot, k: nat, id: int, sought: Option<int>, later: int) {
    && k < |p.observed| && p.observed[k].id == id && ShowsAt(p.observed, id, p.observed[k].opacity)
    && (p.observed[k].opacity == 1.0 <==> sought.None? || c.fadeInMsec <= CountedTime(sought.value, later))
  }

  lemma RecalledBrightness(c: Config, s: Tracker, id: int, sought: Option<int>, later: int) returns (k: nat)
    requires c.Valid() && Drawable(s) && id in LatestIds(s) && OpacitiesSound(s.display)
    requires id !in s.display.transitions && Recalls(s.display, id, sought)
    ensures BrightExactly(c, Picture(c, s, later), k, id, sought, later)
  {
    k := ShownOpacity(c, s, later, id);
    if sought.Some? { FadesIn(c, s.display, id, sought.value, later); }
  }

  /** A frame puts an object on the map, a new one or one that comes back. Over every run, the next
      snapshot shows it fully bright if and only if, since the last reset and since it was last on the
      map, no snapshot has looked for it, or the fade-in is short enough. */
  lemma BrightUnlessSought(h: Hypot, c: Config, configured: Option<Rect>, ops: seq<Op>, frame: Frame, now: int,
                           id: int, later: int) returns (k: nat)
    requires c.Valid()
    requires var s := Run(h, c, Fresh(configured), ops);
             && Continued(s, frame, now) && id in Ids(Kept(s.bounds, frame.objects)) && id !in s.display.transitions
             && Ready(Submitted(h, c, s, frame, now).0.bounds)
    ensures var s, sought := Run(h, c, Fresh(configured), ops), LastSought(h, c, Fresh(configured), ops, id);
            && sought == (if id in s.display.opacities then Lookup(s.display.opacityTimes, id) else None)
            && BrightExactly(c, Picture(c, Submitted(h, c, s, frame, now).0, later), k, id, sought, later)
  {
    var s := Run(h, c, Fresh(configured), ops);
    AlwaysRecalls(h, c, configured, ops, id);
    AlwaysLifeSound(h, c, configured, ops);
    ContinuedState(h, c, s, frame, now);
    var after := Submitted(h, c, s, frame, now).0;
    k := RecalledBrightness(c, after, id, LastSought(h, c, Fresh(configured), ops, id), later);
  }

  /** So an object that is not remembered appears at once. */
  lemma NewObjectIsBright(h: Hypot, c: Config, s: Tracker, frame: Frame, now: int, id: int, later: int) returns (k: nat)
    requires c.Valid() && LifeSound(s) && Ready(s.bounds) && Continued(s, frame, now)
    requires id in Ids(Kept(s.bounds, frame.objects)) && id !in s.display.opacities
    ensures var shown := Picture(c, Submitted(h, c, s, frame, now).0, later).observed;
            k < |shown| && shown[k].id == id && ShowsAt(shown, id, 1.0)
  {
    ContinuedState(h, c, s, frame, now);
    k := ShownOpacity(c, Submitted(h, c, s, frame, now).0, later, id);
  }

  /** But one snapshot of a missing object that was never shown is enough to make it fade in. */
  lemma OmittedBeforeShownFadesIn(h: Hypot, c: Config, s: Tracker, id: int, shot: int, frame: Frame, now: int,
                                  later: int)
    returns (k: nat)
    requires c.Valid() && LifeSound(s) && Drawable(s) && id in s.life.missingSince && id !in s.display.opacities
    requires MissingAge(s.life, id, shot) <= Retention(c)
    requires Continued(s, frame, now) && id in Ids(Kept(s.bounds, frame.objects))
    ensures BrightExactly(c, Picture(c, Submitted(h, c, Built(c, s, shot), frame, now).0, later), k, id, Some(shot),
                          later)
  {
    var built := Built(c, s, shot);
    NotDrawn(c, s, shot, id);
    InvisibleStays(c, s.display, id, MissingAge(s.life, id, shot));
    BuiltHistory(c, s, shot);
    BuiltInput(c, s, shot);
    RenderOpacities(c, s, shot);
    ContinuedState(h, c, built, frame, now);
    k := ShownOpacity(c, Submitted(h, c, built, frame, now).0, later, id);
    FadesIn(c, Submitted(h, c, built, frame, now).0.display, id, shot, later);
  }

  // ---------- two inputs ----------

  /** Two frames before the first snapshot: the second omits an object of the first. */
  ghost function Omission(h: Hypot, c: Config, r: Rect, first: Frame, t1: int, second: Frame, t2: int): Tracker
    requires c.Valid()
  {
    Run(h, c, Fresh(Some(r)), [Submit(first, t1), Submit(second, t2)])
  }

  /** The object is missing since `t2`, off the map, and was last looked for at `sought`. */
  ghost predicate Away(s: Tracker, r: Rect, id: int, t2: int, second: Frame, sought: Option<int>) {
    && LifeSound(s) && Drawable(s) && s.bounds == Initial(Some(r)) && s.lastInput == Some(second) && s.lastArrival == t2
    && id !in LatestIds(s) && id !in s.display.transitions && Recalls(s.display, id, sought)
  }

  lemma OmissionState(h: Hypot, c: Config, r: Rect, first: Frame, t1: int, second: Frame, t2: int, id: int)
    requires c.Valid() && first.sourceTimestamp > 0 && second.sourceTimestamp > 0
    requires 0 < t1 <= t2 <= t1 + SOURCE_RESTART_GAP
    requires id in Ids(Kept(Initial(Some(r)), first.objects)) && id !in Ids(Kept(Initial(Some(r)), second.objects))
    ensures var s := Omission(h, c, r, first, t1, second, t2);
            Away(s, r, id, t2, second, None) && Lookup(s.life.missingSince, id) == Some(t2)
  {
    var s0 := Fresh(Some(r));
    RunTwo(h, c, s0, Submit(first, t1), Submit(second, t2));
    AlwaysLifeSound(h, c, Some(r), [Submit(first, t1), Submit(second, t2)]);
    ContinuedState(h, c, s0, first, t1);
    var s1 := Submitted(h, c, s0, first, t1).0;
    ContinuedState(h, c, s1, second, t2);
    LifeAfterFrame(s0.life, Kept(s0.bounds, first.objects), t1, Retention(c), id);
    LifeAfterFrame(s1.life, Kept(s1.bounds, second.objects), t2, Retention(c), id);
  }

  lemma SnapshotWhileAway(c: Config, s: Tracker, r: Rect, id: int, t2: int, second: Frame, sought: Option<int>,
                          shot: int)
    requires Away(s, r, id, t2, second, sought)
    ensures Away(Built(c, s, shot), r, id, t2, second, SoughtAfter(c, s, Render(shot), id, sought))
    ensures var after := Built(c, s, shot).life;
            if id in s.life.retained && MissingAge(s.life, id, shot) <= Retention(c)
            then id in after.retained && Lookup(after.missingSince, id) == Lookup(s.life.missingSince, id)
            else id !in after.retained
  {
    BuiltHistory(c, s, shot);
    BuiltInput(c, s, shot);
    RenderMissing(c, s, shot);
    RenderOpacities(c, s, shot);
    RenderRecalls(c, s, shot, id, sought);
    RenderLife(c, s, shot, id);
    NotDrawn(c, s, shot, id);
  }

  lemma ReturnFrom(h: Hypot, c: Config, s: Tracker, r: Rect, id: int, t2: int, second: Frame, sought: Option<int>,
                   third: Frame, now: int, later: int) returns (k: nat)
    requires c.Valid() && Away(s, r, id, t2, second, sought) && third.sourceTimestamp > 0
    requires 0 < t2 <= now <= t2 + SOURCE_RESTART_GAP
    requires id in Ids(Kept(Initial(Some(r)), third.objects)) && id !in Ids(Kept(Initial(Some(r)), second.objects))
    ensures BrightExactly(c, Picture(c, Submitted(h, c, s, third, now).0, later), k, id, sought, later)
  {
    ContinuedState(h, c, s, third, now);
    k := RecalledBrightness(c, Submitted(h, c, s, third, now).0, id, sought, later);
  }

  lemma FirstSnapshotSeeks(c: Config, s: Tracker, r: Rect, id: int, t2: int, second: Frame, t3: int)
    requires Away(s, r, id, t2, second, None) && Lookup(s.life.missingSince, id) == Some(t2)
    requires 0 < t2 && t3 - t2 <= Retention(c) && Retention(c) >= 0
    ensures Away(Built(c, s, t3), r, id, t2, second, Some(t3))
    ensures Lookup(Built(c, s, t3).life.missingSince, id) == Some(t2)
  {
    SnapshotWhileAway(c, s, r, id, t2, second, None, t3);
  }

  /** A run that fails to show an object at once: a frame shows it, the next one omits it, the first
      snapshot is taken, a third frame brings the object back. */
  lemma ReturnAfterFirstSnapshot(h: Hypot, c: Config, r: Rect, first: Frame, t1: int, second: Frame, t2: int, t3: int,
                                 third: Frame, t4: int, t5: int, id: int) returns (k: nat)
    requires c.Valid() && first.sourceTimestamp > 0 && second.sourceTimestamp > 0 && third.sourceTimestamp > 0
    requires 0 < t1 <= t2 <= t1 + SOURCE_RESTART_GAP && t2 <= t4 <= t2 + SOURCE_RESTART_GAP && t3 - t2 <= Retention(c)
    requires id in Ids(Kept(Initial(Some(r)), first.objects)) && id !in Ids(Kept(Initial(Some(r)), second.objects))
    requires id in Ids(Kept(Initial(Some(r)), third.objects))
    ensures var ops := [Submit(first, t1), Submit(second, t2)] + [Render(t3)] + [Submit(third, t4)];
            BrightExactly(c, Picture(c, Run(h, c, Fresh(Some(r)), ops), t5), k, id, Some(t3), t5)
  {
    var ops := [Submit(first, t1), Submit(second, t2)];
    OmissionState(h, c, r, first, t1, second, t2, id);
    RunMore(h, c, Fresh(Some(r)), ops, Render(t3));
    RunMore(h, c, Fresh(Some(r)), ops + [Render(t3)], Submit(third, t4));
    var s := Omission(h, c, r, first, t1, second, t2);
    FirstSnapshotSeeks(c, s, r, id, t2, second, t3);
    k := ReturnFrom(h, c, Built(c, s, t3), r, id, t2, second, Some(t3), third, t4, t5);
  }

  /** Once the time of the object is up a second snapshot drops it, but what the first one remembered
      of it stays. */
  lemma SecondSnapshotDrops(c: Config, s: Tracker, r: Rect, id: int, t2: int, second: Frame, t3: int, t4: int)
    requires Away(s, r, id, t2, second, Some(t3)) && Lookup(s.life.missingSince, id) == Some(t2)
    requires 0 < t2 && Retention(c) < t4 - t2 && Retention(c) >= 0
    ensures Away(Built(c, s, t4), r, id, t2, second, Some(t3)) && id !in Built(c, s, t4).life.retained
  {
    SnapshotWhileAway(c, s, r, id, t2, second, Some(t3), t4);
  }

  /** A run that fails although nothing else is left of the object. */
  lemma ReturnAfterDrop(h: Hypot, c: Config, r: Rect, first: Frame, t1: int, second: Frame, t2: int, t3: int, t4: int,
                        third: Frame, t5: int, t6: int, id: int) returns (k: nat)
    requires c.Valid() && first.sourceTimestamp > 0 && second.sourceTimestamp > 0 && third.sourceTimestamp > 0
    requires 0 < t1 <= t2 <= t1 + SOURCE_RESTART_GAP && t2 <= t5 <= t2 + SOURCE_RESTART_GAP
    requires t3 - t2 <= Retention(c) < t4 - t2
    requires id in Ids(Kept(Initial(Some(r)), first.objects)) && id !in Ids(Kept(Initial(Some(r)), second.objects))
    requires id in Ids(Kept(Initial(Some(r)), third.objects))
    ensures var ops := [Submit(first, t1), Submit(second, t2)] + [Render(t3)] + [Render(t4)];
            && id !in Run(h, c, Fresh(Some(r)), ops).life.retained
            && BrightExactly(c, Picture(c, Run(h, c, Fresh(Some(r)), ops + [Submit(third, t5)]), t6), k, id, Some(t3),
                             t6)
  {
    var ops := [Submit(first, t1), Submit(second, t2)];
    var s := Omission(h, c, r, first, t1, second, t2);
    OmissionState(h, c, r, first, t1, second, t2, id);
    FirstSnapshotSeeks(c, s, r, id, t2, second, t3);
    SecondSnapshotDrops(c, Built(c, s, t3), r, id, t2, second, t3, t4);
    RunMore(h, c, Fresh(Some(r)), ops, Render(t3));
    RunMore(h, c, Fresh(Some(r)), ops + [Render(t3)], Render(t4));
    RunMore(h, c, Fresh(Some(r)), ops + [Render(t3)] + [Render(t4)], Submit(third, t5));
    k := ReturnFrom(h, c, Built(c, Built(c, s, t3), t4), r, id, t2, second, Some(t3), third, t5, t6);
  }
}
