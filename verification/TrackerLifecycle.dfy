/** Life of objects on the map: which are missing, when one is dropped and how bright it is shown
    while the stream stalls, over every run of the tracker. */
module TrackerLifecycle {
  import opened Domain
  import opened TrackerFilters
  import opened TrackerBounds
  import opened TrackerState
  import opened TrackerRuns

  // ---------- missing objects ----------

  ghost predicate MissingAre(life: Lifecycle, latest: set<int>) {
    && latest <= life.retained.Keys
    && life.missingSince.Keys == life.retained.Keys - latest
    && forall id :: id in life.missingSince ==> life.missingSince[id] > 0
  }

  function LatestIds(s: Tracker): set<int> { if s.history == [] then {} else Ids(Latest(s)) }

  /** The objects with a missing-since time are exactly the retained ones that the last accepted
      frame does not hold; without a frame there are none. */
  ghost predicate MissingSound(s: Tracker) {
    MissingAre(s.life, LatestIds(s)) && (s.history == [] ==> s.life.retained.Keys == {})
  }

  lemma IdsOneMore(objects: seq<RiskObject>)
    requires objects != []
    ensures Ids(objects) == Ids(objects[..|objects| - 1]) + {objects[|objects| - 1].globalId}
  {}

  lemma {:induction false} SeenKeys(life: Lifecycle, objects: seq<RiskObject>)
    ensures Seen(life, objects).retained.Keys == life.retained.Keys + Ids(objects)
    ensures Seen(life, objects).missingSince == life.missingSince - Ids(objects)
  {
    if objects != [] {
      SeenKeys(life, objects[..|objects| - 1]);
      IdsOneMore(objects);
    }
  }

  /** What a frame does to one object: present ones are retained and not missing; an omitted one is
      missing since this frame, or keeps its time, or is dropped when its time is up. */
  lemma LifeAfterFrame(life: Lifecycle, objects: seq<RiskObject>, now: int, retention: int, id: int)
    ensures var after, since := LifeAfter(life, objects, now, retention), Get(life.missingSince, id, 0);
            && (id in Ids(objects) ==> id in after.retained && id !in after.missingSince)
            && (id !in Ids(objects) && id in life.retained ==>
                  if since <= 0 then id in after.retained && id in after.missingSince && after.missingSince[id] == now
                  else if now - since > retention then id !in after.retained && id !in after.missingSince
                  else id in after.retained && id in after.missingSince && after.missingSince[id] == since)
            && (id !in Ids(objects) && id !in life.retained ==> id !in after.retained)
  {
    SeenKeys(life, objects);
    var seen := Seen(life, objects);
    var candidates := seen.retained.Keys - Ids(objects);
    assert id !in Ids(objects) ==> Get(seen.missingSince, id, 0) == Get(life.missingSince, id, 0);
  }

  lemma AcceptMissing(h: Hypot, c: Config, s: Tracker, frame: Frame, now: int, delta: int)
    requires c.Valid() && MissingSound(s) && now > 0
    ensures MissingSound(Accept(h, c, s, frame, now, delta))
  {
    var objects := Kept(s.bounds, frame.objects);
    var after := Accept(h, c, s, frame, now, delta);
    assert after.life == LifeAfter(s.life, objects, now, Retention(c));
    assert Latest(after) == objects;
    FrameMissing(s.life, objects, now, Retention(c), LatestIds(s));
  }

  lemma FrameMissing(life: Lifecycle, objects: seq<RiskObject>, now: int, retention: int, latest: set<int>)
    requires now > 0 && MissingAre(life, latest)
    ensures MissingAre(LifeAfter(life, objects, now, retention), Ids(objects))
  {
    var after := LifeAfter(life, objects, now, retention);
    forall id
      ensures id in Ids(objects) ==> id in after.retained
      ensures id in after.missingSince <==> id in after.retained && id !in Ids(objects)
      ensures id in after.missingSince ==> after.missingSince[id] > 0
    {
      LifeAfterFrame(life, objects, now, retention, id);
      MissingIsRetained(life, objects, now, retention, id);
    }
  }

  lemma MissingIsRetained(life: Lifecycle, objects: seq<RiskObject>, now: int, retention: int, id: int)
    requires life.missingSince.Keys <= life.retained.Keys
    ensures id in LifeAfter(life, objects, now, retention).missingSince ==> id in life.retained && id !in Ids(objects)
  {
    SeenKeys(life, objects);
    LifeAfterFrame(life, objects, now, retention, id);
  }

  // ---------- drawing ----------

  predicate Bright(d: Display, id: int, opacity: real) {
    id in d.opacities && d.opacities[id] >= opacity
  }

  ghost predicate OpacitiesSound(d: Display) {
    forall id :: id in d.opacities ==> 0.0 <= d.opacities[id] <= 1.0
  }

  /** Each object of the frame that has been drawn is in the list. */
  ghost predicate Listed(d: Drawing) {
    forall id :: id in d.current ==> exists k :: 0 <= k < |d.objects| && d.objects[k].id == id
  }

  /** While the latest frame is drawn nothing of it gets darker, and each of its objects is shown
      as observed, no darker than before and no brighter than what is remembered. */
  ghost predicate DrawnSound(start: Display, d: Drawing) {
    && OpacitiesSound(d.display)
    && (forall id :: id in start.opacities ==> Bright(d.display, id, start.opacities[id]))
    && (forall k :: 0 <= k < |d.objects| ==>
          d.objects[k].observed && Bright(d.display, d.objects[k].id, d.objects[k].opacity)
          && d.objects[k].opacity >= Get(start.opacities, d.objects[k].id, 0.0))
  }

  lemma PresentOpacityGrows(c: Config, d: Display, id: int, now: int)
    requires OpacitiesSound(d)
    ensures Get(d.opacities, id, 0.0) <= PresentOpacity(c, d, id, now) <= 1.0 && PresentOpacity(c, d, id, now) >= 0.0
  {}

  lemma DrawnStep(c: Config, s: Tracker, objects: seq<RiskObject>, d: Drawing, o: RiskObject, now: int, start: Display)
    requires DrawnSound(start, d)
    ensures DrawnSound(start,
                       DrawnObserved(c, s.filters, s.previous, s.frameSequence, s.measuredInterval, objects, d, o, now))
  {
    PresentOpacityGrows(c, d.display, o.globalId, now);
  }

  lemma DrawnListed(c: Config, s: Tracker, objects: seq<RiskObject>, d: Drawing, o: RiskObject, now: int)
    requires Listed(d)
    ensures var after :=
      DrawnObserved(c, s.filters, s.previous, s.frameSequence, s.measuredInterval, objects, d, o, now);
            Listed(after) && after.current.Keys == d.current.Keys + {o.globalId}
  {
    var after := DrawnObserved(c, s.filters, s.previous, s.frameSequence, s.measuredInterval, objects, d, o, now);
    var n := |d.objects|;
    forall id | id in after.current ensures exists k :: 0 <= k < |after.objects| && after.objects[k].id == id {
      if id in d.current {
        var k :| 0 <= k < n && d.objects[k].id == id;
        assert after.objects[k].id == id;
      } else {
        assert after.objects[n].id == id;
      }
    }
  }

  lemma {:induction false} DrawnAllSound(c: Config, s: Tracker, objects: seq<RiskObject>, n: nat, now: int)
    requires n <= |objects| && OpacitiesSound(s.display)
    ensures DrawnSound(s.display, DrawnAll(c, s, objects, n, now))
  {
    if n > 0 {
      DrawnAllSound(c, s, objects, n - 1, now);
      DrawnStep(c, s, objects, DrawnAll(c, s, objects, n - 1, now), objects[n - 1], now, s.display);
    }
  }

  lemma {:induction false} DrawnAllListed(c: Config, s: Tracker, objects: seq<RiskObject>, n: nat, now: int)
    requires n <= |objects|
    ensures Listed(DrawnAll(c, s, objects, n, now)) && DrawnAll(c, s, objects, n, now).current.Keys == Ids(objects[..n])
  {
    if n > 0 {
      DrawnAllListed(c, s, objects, n - 1, now);
      DrawnListed(c, s, objects, DrawnAll(c, s, objects, n - 1, now), objects[n - 1], now);
      IdsOfPrefix(objects, n);
    }
  }

  lemma IdsOfPrefix(objects: seq<RiskObject>, n: nat)
    requires 0 < n <= |objects|
    ensures Ids(objects[..n]) == Ids(objects[..n - 1]) + {objects[n - 1].globalId}
  {}

  function LatestDrawing(c: Config, s: Tracker, now: int): Drawing
    requires s.history != []
  {
    DrawnAll(c, s, Latest(s), |Latest(s)|, now)
  }

  lemma DrawnCurrent(c: Config, s: Tracker, now: int)
    requires s.history != []
    ensures Listed(LatestDrawing(c, s, now)) && LatestDrawing(c, s, now).current.Keys == LatestIds(s)
  {
    DrawnAllListed(c, s, Latest(s), |Latest(s)|, now);
    assert Latest(s)[..|Latest(s)|] == Latest(s);
  }

  ghost predicate ListedOnce(d: Drawing) {
    && (forall k :: 0 <= k < |d.objects| ==> d.objects[k].id in d.current)
    && forall j, k :: 0 <= j < k < |d.objects| ==> d.objects[j].id != d.objects[k].id
  }

  lemma {:induction false} DrawnListedOnce(c: Config, s: Tracker, objects: seq<RiskObject>, n: nat, now: int)
    requires n <= |objects|
    ensures ListedOnce(DrawnAll(c, s, objects, n, now))
  {
    if n > 0 {
      DrawnListedOnce(c, s, objects, n - 1, now);
      ListedOnceMore(c, s, objects, DrawnAll(c, s, objects, n - 1, now), objects[n - 1], now);
    }
  }

  lemma ListedOnceMore(c: Config, s: Tracker, objects: seq<RiskObject>, d: Drawing, o: RiskObject, now: int)
    requires ListedOnce(d)
    ensures ListedOnce(DrawnObserved(c, s.filters, s.previous, s.frameSequence, s.measuredInterval, objects, d, o, now))
  {}

  /** A snapshot lists every object once, also when the frame repeats it. */
  lemma SnapshotListsOnce(c: Config, s: Tracker, now: int, j: nat, k: nat)
    requires j < |Picture(c, s, now).observed| && k < |Picture(c, s, now).observed|
    ensures var p := Picture(c, s, now);
            && (p.observed[j].id == p.observed[k].id ==> j == k) && p.observed[j].id !in p.missing
            && forall id :: id in p.missing ==> p.missing[id].id == id
  {
    var q := Quiet(s);
    DrawnListedOnce(c, q, Latest(q), |Latest(q)|, now);
  }

  lemma StillShown(c: Config, life: Lifecycle, f: Filters, d: Display, current: set<int>, now: int, id: int)
    requires MissingAre(life, current)
    ensures var ghosts := Ghosts(c, life, f, d, life.retained.Keys - current, now);
            var after := LifeWithout(life, life.retained.Keys - current - ghosts.Keys, ghosts.Keys);
            && (id in after.retained
                <==> id in life.retained && (id in current || MissingAge(life, id, now) <= Retention(c)))
            && (id in after.missingSince <==> id in life.missingSince && id in after.retained)
            && (id in after.missingSince ==> after.missingSince[id] == life.missingSince[id])
  {}

  /** A snapshot drops exactly the missing objects whose time is up. */
  lemma RenderLife(c: Config, s: Tracker, now: int, id: int)
    requires MissingSound(s) && Drawable(s)
    ensures var after := Built(c, s, now).life;
            && (id in after.retained <==> id in s.life.retained
                                          && (id in LatestIds(s) || MissingAge(s.life, id, now) <= Retention(c)))
            && (id in after.missingSince <==> id in s.life.missingSince && id in after.retained)
            && (id in after.missingSince ==> after.missingSince[id] == s.life.missingSince[id])
  {
    var q := Quiet(s);
    DrawnCurrent(c, q, now);
    StillShown(c, s.life, s.filters, LatestDrawing(c, q, now).display, LatestIds(s), now, id);
  }

  lemma BuiltHistory(c: Config, s: Tracker, now: int)
    ensures Built(c, s, now).history == s.history && Built(c, s, now).bounds == s.bounds
    ensures !Drawable(s) ==> Built(c, s, now).life == s.life && Built(c, s, now).display == s.display
  {}

  lemma RenderMissing(c: Config, s: Tracker, now: int)
    requires MissingSound(s)
    ensures MissingSound(Built(c, s, now))
  {
    BuiltHistory(c, s, now);
    if Drawable(s) {
      forall id
        ensures var after := Built(c, s, now).life;
                && (id in LatestIds(s) ==> id in after.retained)
                && (id in after.missingSince <==> id in after.retained && id !in LatestIds(s))
                && (id in after.missingSince ==> after.missingSince[id] > 0)
      {
        RenderLife(c, s, now, id);
      }
      MissingFromPoints(Built(c, s, now).life, LatestIds(s));
    }
  }

  lemma MissingFromPoints(life: Lifecycle, latest: set<int>)
    requires forall id :: id in latest ==> id in life.retained
    requires forall id :: id in life.missingSince <==> id in life.retained && id !in latest
    requires forall id :: id in life.missingSince ==> life.missingSince[id] > 0
    ensures MissingAre(life, latest)
  {
    assert forall id :: id in life.missingSince.Keys <==> id in life.missingSince;
    assert forall id :: id in life.retained.Keys <==> id in life.retained;
    assert forall id :: id in life.missingSince.Keys <==> id in life.retained.Keys - latest;
    assert forall id :: id in latest ==> id in life.retained.Keys;
  }

  lemma FadedSound(c: Config, life: Lifecycle, d: Display, ghosts: set<int>, now: int)
    requires OpacitiesSound(d)
    ensures OpacitiesSound(Faded(c, life, d, ghosts, now))
  {}

  lemma RenderOpacities(c: Config, s: Tracker, now: int)
    requires OpacitiesSound(s.display)
    ensures OpacitiesSound(Built(c, s, now).display)
  {
    if Drawable(s) {
      var q := Quiet(s);
      var d := LatestDrawing(c, q, now);
      DrawnAllSound(c, q, Latest(q), |Latest(q)|, now);
      var ghosts := Ghosts(c, q.life, q.filters, d.display, Undrawn(q, d), now);
      FadedSound(c, q.life, d.display, ghosts.Keys, now);
    }
  }

  ghost predicate LifeSound(s: Tracker) { MissingSound(s) && OpacitiesSound(s.display) }

  lemma SubmitLife(h: Hypot, c: Config, s: Tracker, frame: Frame, now: int)
    requires c.Valid() && LifeSound(s)
    ensures LifeSound(Submitted(h, c, s, frame, now).0)
  {
    var a := Arrived(s, now);
    assert LifeSound(a);
    if now > 0 { AcceptMissing(h, c, a, frame, now, Delta(s, now)); }
  }

  lemma StepLife(h: Hypot, c: Config, s: Tracker, op: Op)
    requires c.Valid() && LifeSound(s)
    ensures LifeSound(Do(h, c, s, op))
  {
    match op
    case Submit(frame, now) => SubmitLife(h, c, s, frame, now);
    case Render(now) =>
      RenderMissing(c, s, now);
      RenderOpacities(c, s, now);
    case Expire(now, expiry) =>
    case Restart =>
  }

  /** In every run the ids with a missing-since time are exactly the retained ones absent from
      the last accepted frame, and opacities are between 0 and 1. */
  lemma {:induction false} AlwaysLifeSound(h: Hypot, c: Config, configured: Option<Rect>, ops: seq<Op>)
    requires c.Valid()
    ensures LifeSound(Run(h, c, Fresh(configured), ops))
  {
    if ops != [] {
      var n := |ops| - 1;
      AlwaysLifeSound(h, c, configured, ops[..n]);
      StepLife(h, c, Run(h, c, Fresh(configured), ops[..n]), ops[n]);
    }
  }

  // ---------- dropping ----------

  /** The reasons for which an object missing since `m` may lose that state: a reset, a frame that
      holds it, or a frame or snapshot later than grace and fade-out after `m`. */
  ghost predicate Excused(c: Config, s: Tracker, op: Op, id: int, m: int) {
    || Resets(s, op)
    || (op.Submit? && id in Ids(Kept(s.bounds, op.frame.objects)))
    || ((op.Submit? || op.Render?) && op.now - m > Retention(c))
  }

  lemma StepKeepsMissing(h: Hypot, c: Config, s: Tracker, op: Op, id: int, m: int)
    requires c.Valid() && LifeSound(s) && !Excused(c, s, op, id, m)
    requires id in s.life.retained && id in s.life.missingSince && s.life.missingSince[id] == m
    ensures var after := Do(h, c, s, op).life;
            id in after.retained && id in after.missingSince && after.missingSince[id] == m
  {
    match op
    case Submit(frame, now) => LifeAfterFrame(s.life, Kept(s.bounds, frame.objects), now, Retention(c), id);
    case Render(now) => if Drawable(s) { RenderLife(c, s, now, id); }
    case Expire(now, expiry) =>
    case Restart =>
  }

  /** Over every run an omitted object is dropped only after grace plus fade-out, measured from
      the frame that first omitted it. */
  lemma {:induction false} DroppedOnlyLate(h: Hypot, c: Config, s: Tracker, ops: seq<Op>, id: int, m: int)
    requires c.Valid() && LifeSound(s)
    requires id in s.life.retained && id in s.life.missingSince && s.life.missingSince[id] == m
    requires forall i :: 0 <= i < |ops| ==> !Excused(c, Run(h, c, s, ops[..i]), ops[i], id, m)
    ensures var after := Run(h, c, s, ops);
            LifeSound(after) && id in after.life.retained && id in after.life.missingSince
              && after.life.missingSince[id] == m
  {
    if ops != [] {
      var n := |ops| - 1;
      forall i | 0 <= i < n ensures !Excused(c, Run(h, c, s, ops[..n][..i]), ops[..n][i], id, m) {
        assert ops[..n][..i] == ops[..i];
      }
      DroppedOnlyLate(h, c, s, ops[..n], id, m);
      StepKeepsMissing(h, c, Run(h, c, s, ops[..n]), ops[n], id, m);
      StepLife(h, c, Run(h, c, s, ops[..n]), ops[n]);
    }
  }

  // ---------- a stalled stream ----------

  /** One snapshot of a stalled stream: every object of the latest frame is shown as observed, no
      darker than remembered, and what is remembered afterwards is no darker than shown. */
  lemma StalledSnapshot(c: Config, s: Tracker, now: int, id: int) returns (k: nat)
    requires LifeSound(s) && Drawable(s) && id in LatestIds(s)
    ensures var picture := Picture(c, s, now).observed;
            && k < |picture| && picture[k].id == id && picture[k].observed
            && picture[k].opacity >= Get(s.display.opacities, id, 0.0)
            && Bright(Built(c, s, now).display, id, picture[k].opacity)
  {
    var q := Quiet(s);
    var d := LatestDrawing(c, q, now);
    DrawnCurrent(c, q, now);
    DrawnAllSound(c, q, Latest(q), |Latest(q)|, now);
    assert id in d.current;
    k :| 0 <= k < |d.objects| && d.objects[k].id == id;
    FinishedKeepsBright(c, q, d, Ghosts(c, q.life, q.filters, d.display, Undrawn(q, d), now), now, id,
                        d.objects[k].opacity);
  }

  lemma FinishedKeepsBright(c: Config, s: Tracker, d: Drawing, ghosts: map<int, Shown>, now: int, id: int,
                            opacity: real)
    requires id in d.current && Bright(d.display, id, opacity) && id !in ghosts
    ensures Bright(Finished(c, s, d, ghosts, now).display, id, opacity)
  {}

  ghost predicate Stalled(s: Tracker, id: int, opacity: real) {
    LifeSound(s) && Drawable(s) && id in LatestIds(s) && Get(s.display.opacities, id, 0.0) >= opacity
  }

  lemma StalledStep(c: Config, s: Tracker, now: int, id: int, opacity: real)
    requires Stalled(s, id, opacity)
    ensures Stalled(Built(c, s, now), id, opacity)
  {
    var k := StalledSnapshot(c, s, now, id);
    RenderMissing(c, s, now);
    RenderOpacities(c, s, now);
    BuiltHistory(c, s, now);
  }

  ghost function Renders(c: Config, s: Tracker, times: seq<int>): Tracker {
    if times == [] then s else Built(c, Renders(c, s, times[..|times| - 1]), times[|times| - 1])
  }

  lemma {:induction false} StaysStalled(c: Config, s: Tracker, times: seq<int>, id: int, opacity: real)
    requires Stalled(s, id, opacity)
    ensures Stalled(Renders(c, s, times), id, opacity)
  {
    if times != [] {
      StaysStalled(c, s, times[..|times| - 1], id, opacity);
      StalledStep(c, Renders(c, s, times[..|times| - 1]), times[|times| - 1], id, opacity);
    }
  }

  /** However long the stream stalls and whatever the clock does, each object of the last frame
      stays on the map as observed, in every later snapshot at least as bright as in this one. */
  lemma StalledStreamStaysBright(c: Config, s: Tracker, first: int, times: seq<int>, now: int, id: int)
    returns (j: nat, k: nat)
    requires LifeSound(s) && Drawable(s) && id in LatestIds(s)
    ensures var before, later :=
      Picture(c, s, first).observed, Picture(c, Renders(c, Built(c, s, first), times), now).observed;
            && j < |before| && before[j].id == id && before[j].observed
            && k < |later| && later[k].id == id && later[k].observed
            && later[k].opacity >= before[j].opacity
  {
    j := StalledSnapshot(c, s, first, id);
    var opacity := Picture(c, s, first).observed[j].opacity;
    StalledStep(c, s, first, id, Get(s.display.opacities, id, 0.0));
    StaysStalled(c, Built(c, s, first), times, id, opacity);
    k := StalledSnapshot(c, Renders(c, Built(c, s, first), times), now, id);
  }

  // ---------- a frame that continues the stream ----------

  lemma UpdatedStaysReady(b: Bounds, sourceTimestamp: int, positions: seq<Point>, c: WorldConfig)
    requires Ready(b)
    ensures Ready(Updated(b, sourceTimestamp, positions, c))
  {}

  /** A frame that is taken without a restart. */
  predicate Continued(s: Tracker, frame: Frame, now: int) {
    && frame.sourceTimestamp > 0 && now > 0 && s.lastInput != Some(frame)
    && (s.lastArrival > 0 ==> now - s.lastArrival <= SOURCE_RESTART_GAP)
  }

  lemma ContinuedState(h: Hypot, c: Config, s: Tracker, frame: Frame, now: int)
    requires c.Valid() && Continued(s, frame, now)
    ensures var after := Submitted(h, c, s, frame, now).0; var objects := Kept(s.bounds, frame.objects);
            && after.display == s.display && after.history != [] && Latest(after) == objects
            && after.life == LifeAfter(s.life, objects, now, Retention(c)) && after.lastInput == Some(frame)
            && after.lastArrival == now && (Ready(s.bounds) ==> Ready(after.bounds))
            && (s.bounds.configured.Some? ==> after.bounds == s.bounds)
  {
    var objects := Kept(s.bounds, frame.objects);
    var positions := Targets(ObservedAll(h, s.filters, objects, now), objects);
    if Ready(s.bounds) { UpdatedStaysReady(s.bounds, frame.sourceTimestamp, positions, c.world); }
  }

  lemma BuiltInput(c: Config, s: Tracker, now: int)
    ensures Built(c, s, now).lastInput == s.lastInput && Built(c, s, now).lastArrival == s.lastArrival
  {}
}
