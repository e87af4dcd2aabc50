/** The motion of one tracked object over whole runs: what the filter laws say about the filtered
    position that the tracker keeps, with frames, snapshots and other objects in between. */
module TrackerMotion {
  import opened Domain
  import opened TrackerFilters
  import opened TrackerBounds
  import opened TrackerState
  import opened TrackerRuns
  import opened TrackerLifecycle

  ghost predicate Followed(f: Filters, id: int) {
    id in f.positions && id in f.times && f.times[id] > 0
  }

  // ---------- the samples of one object ----------

  /** What a sample at `now` asks of the filter: the median that it makes, after the time since the last one. */
  function UpdateOf(f: Filters, o: RiskObject, now: int): Update {
    Update(now - Get(f.times, o.globalId, 0), Median(Sampled(Get(f.histories, o.globalId, []), o.worldPosition)))
  }

  /** The updates of `id` in a frame, one for each time the frame lists it. */
  function FrameUpdates(h: Hypot, f: Filters, objects: seq<RiskObject>, now: int, id: int): seq<Update> {
    if objects == [] then []
    else
      var n := |objects| - 1;
      var before := FrameUpdates(h, f, objects[..n], now, id);
      if objects[n].globalId == id then before + [UpdateOf(ObservedAll(h, f, objects[..n], now), objects[n], now)]
        else before
  }

  ghost function Elapsed(us: seq<Update>): int {
    if us == [] then 0 else Elapsed(us[..|us| - 1]) + us[|us| - 1].gap
  }

  /** `after` follows from `before` by these updates of `id`. */
  ghost predicate Follows(h: Hypot, before: Filters, after: Filters, id: int, us: seq<Update>) {
    && Followed(before, id) && Followed(after, id)
    && after.positions[id] == Follow(h, before.positions[id], us)
    && after.times[id] - before.times[id] == Elapsed(us)
  }

  lemma SampleFollows(h: Hypot, start: Filters, f: Filters, o: RiskObject, now: int, us: seq<Update>)
    requires Follows(h, start, f, o.globalId, us) && now > 0
    ensures Follows(h, start, Observed(h, f, o.globalId, o.worldPosition, now), o.globalId, us + [UpdateOf(f, o, now)])
  {
    var u := UpdateOf(f, o, now);
    assert (us + [u])[..|us|] == us;
    assert Follow(h, start.positions[o.globalId], us + [u]) == Stepped(h, f.positions[o.globalId], u);
  }

  lemma OtherSample(h: Hypot, start: Filters, f: Filters, o: RiskObject, now: int, id: int, us: seq<Update>)
    requires Follows(h, start, f, id, us) && id != o.globalId
    ensures Follows(h, start, Observed(h, f, o.globalId, o.worldPosition, now), id, us)
  {}

  lemma {:induction false} FrameFollows(h: Hypot, f: Filters, objects: seq<RiskObject>, now: int, id: int)
    requires Followed(f, id) && now > 0
    ensures Follows(h, f, ObservedAll(h, f, objects, now), id, FrameUpdates(h, f, objects, now, id))
  {
    if objects != [] {
      var n := |objects| - 1;
      FrameFollows(h, f, objects[..n], now, id);
      var before, us := ObservedAll(h, f, objects[..n], now), FrameUpdates(h, f, objects[..n], now, id);
      if objects[n].globalId == id { SampleFollows(h, f, before, objects[n], now, us); }
        else { OtherSample(h, f, before, objects[n], now, id, us); }
    }
  }

  // ---------- steps ----------

  /** The operation leaves the object tracked: it is no reset, and no snapshot more than 500 ms after
      its last sample. */
  predicate StaysTracked(s: Tracker, op: Op, id: int) {
    !Resets(s, op) && (op.Render? ==> !Stale(s.filters, id, op.now))
  }

  function UpdatesIn(h: Hypot, s: Tracker, op: Op, id: int): seq<Update> {
    if op.Submit? && Continued(s, op.frame, op.now)
      then FrameUpdates(h, s.filters, Kept(s.bounds, op.frame.objects), op.now, id)
    else []
  }

  ghost function Updates(h: Hypot, c: Config, s: Tracker, ops: seq<Op>, id: int): seq<Update>
    requires c.Valid()
  {
    if ops == [] then []
    else
      var n := |ops| - 1;
      Updates(h, c, s, ops[..n], id) + UpdatesIn(h, Run(h, c, s, ops[..n]), ops[n], id)
  }

  lemma SubmitFilters(h: Hypot, c: Config, s: Tracker, frame: Frame, now: int)
    requires c.Valid() && !Resets(s, Submit(frame, now))
    ensures Submitted(h, c, s, frame, now).0.filters
         == if Continued(s, frame, now) then ObservedAll(h, s.filters, Kept(s.bounds, frame.objects), now)
           else s.filters
  {}

  lemma RenderKeeps(c: Config, s: Tracker, now: int, id: int)
    requires Followed(s.filters, id) && !Stale(s.filters, id, now)
    ensures var f := Built(c, s, now).filters;
            Followed(f, id) && f.positions[id] == s.filters.positions[id] && f.times[id] == s.filters.times[id]
  {}

  lemma StepFollows(h: Hypot, c: Config, s: Tracker, op: Op, id: int)
    requires c.Valid() && Followed(s.filters, id) && StaysTracked(s, op, id)
    ensures Follows(h, s.filters, Do(h, c, s, op).filters, id, UpdatesIn(h, s, op, id))
  {
    match op
    case Submit(frame, now) =>
      SubmitFilters(h, c, s, frame, now);
      if Continued(s, frame, now) { FrameFollows(h, s.filters, Kept(s.bounds, frame.objects), now, id); }
    case Render(now) => RenderKeeps(c, s, now, id);
    case Expire(now, expiry) =>
    case Restart =>
  }

  lemma {:induction false} FollowMore(h: Hypot, p: Point, us: seq<Update>, vs: seq<Update>)
    ensures Follow(h, p, us + vs) == Follow(h, Follow(h, p, us), vs) && Elapsed(us + vs) == Elapsed(us) + Elapsed(vs)
  {
    if vs == [] {
      assert us + vs == us;
    } else {
      var n := |vs| - 1;
      FollowMore(h, p, us, vs[..n]);
      assert (us + vs)[..|us + vs| - 1] == us + vs[..n];
    }
  }

  // ---------- runs ----------

  /** Over every run that leaves the object tracked, its filtered position is what the filter makes of
      its samples, and their gaps add up to the time that has passed. */
  lemma {:induction false} TrackedFollows(h: Hypot, c: Config, s: Tracker, ops: seq<Op>, id: int)
    requires c.Valid() && Followed(s.filters, id)
    requires forall i :: 0 <= i < |ops| ==> StaysTracked(Run(h, c, s, ops[..i]), ops[i], id)
    ensures Follows(h, s.filters, Run(h, c, s, ops).filters, id, Updates(h, c, s, ops, id))
  {
    if ops != [] {
      var n := |ops| - 1;
      forall i | 0 <= i < n ensures StaysTracked(Run(h, c, s, ops[..n][..i]), ops[..n][i], id) {
        assert ops[..n][..i] == ops[..i];
      }
      TrackedFollows(h, c, s, ops[..n], id);
      var before := Run(h, c, s, ops[..n]);
      StepFollows(h, c, before, ops[n], id);
      FollowMore(h, s.filters.positions[id], Updates(h, c, s, ops[..n], id), UpdatesIn(h, before, ops[n], id));
    }
  }

  /** So over every such run it moves at most 8 m/s, a gap counting for at least 16 ms, if each sample
      keeps the limit; by `LimitIsKeptExactly` no other sample does. */
  lemma TrackedSpeedIsLimited(h: Hypot, c: Config, s: Tracker, ops: seq<Op>, id: int)
    requires IsHypot(h) && c.Valid() && Followed(s.filters, id)
    requires forall i :: 0 <= i < |ops| ==> StaysTracked(Run(h, c, s, ops[..i]), ops[i], id)
    requires AllTame(h, s.filters.positions[id], Updates(h, c, s, ops, id))
    ensures var f := Run(h, c, s, ops).filters;
            id in f.positions
              && Distance(h, s.filters.positions[id], f.positions[id]) <= Allowance(Updates(h, c, s, ops, id))
  {
    TrackedFollows(h, c, s, ops, id);
    SpeedIsLimited(h, s.filters.positions[id], Updates(h, c, s, ops, id));
  }

  /** And if all medians agree it gets there, within one sample for every 0.128 m. */
  lemma TrackedReachesConstantTarget(h: Hypot, c: Config, s: Tracker, ops: seq<Op>, id: int, q: Point)
    requires IsHypot(h) && c.Valid() && Followed(s.filters, id)
    requires forall i :: 0 <= i < |ops| ==> StaysTracked(Run(h, c, s, ops[..i]), ops[i], id)
    requires var us := Updates(h, c, s, ops, id);
             us != [] && (forall i :: 0 <= i < |us| ==> us[i].target == q)
             && Distance(h, s.filters.positions[id], q) <= 0.128 * |us| as real
    ensures Lookup(Run(h, c, s, ops).filters.positions, id) == Some(q)
  {
    TrackedFollows(h, c, s, ops, id);
    ReachesConstantTarget(h, s.filters.positions[id], q, Updates(h, c, s, ops, id));
  }

  // ---------- samples that keep the limit ----------

  /** Exactly one object of the frame, number `k`, has this id. */
  ghost predicate Once(objects: seq<RiskObject>, id: int, k: nat) {
    k < |objects| && objects[k].globalId == id && forall i :: 0 <= i < |objects| && objects[i].globalId == id ==> i == k
  }

  /** If the operation samples the object it does so once, 1 to 500 ms after the last sample. */
  ghost predicate Timely(s: Tracker, op: Op, id: int) {
    op.Submit? && id in Ids(Kept(s.bounds, op.frame.objects)) ==>
      0 < op.now - Get(s.filters.times, id, 0) <= POSITION_FILTER_RESET_GAP
      && exists k :: Once(Kept(s.bounds, op.frame.objects), id, k)
  }

  lemma {:induction false} NotListed(h: Hypot, f: Filters, objects: seq<RiskObject>, now: int, id: int)
    requires id !in Ids(objects)
    ensures FrameUpdates(h, f, objects, now, id) == []
    ensures Get(ObservedAll(h, f, objects, now).times, id, 0) == Get(f.times, id, 0)
  {
    if objects != [] {
      IdsOneMore(objects);
      NotListed(h, f, objects[..|objects| - 1], now, id);
    }
  }

  ghost predicate Gaps(us: seq<Update>) {
    forall i :: 0 <= i < |us| ==> 0 < us[i].gap <= POSITION_FILTER_RESET_GAP
  }

  lemma {:induction false} ListedOnce(h: Hypot, f: Filters, objects: seq<RiskObject>, now: int, id: int, k: nat)
    requires Once(objects, id, k) && 0 < now - Get(f.times, id, 0) <= POSITION_FILTER_RESET_GAP
    ensures Gaps(FrameUpdates(h, f, objects, now, id))
  {
    var n := |objects| - 1;
    if k == n {
      NotListed(h, f, objects[..n], now, id);
    } else {
      ListedOnce(h, f, objects[..n], now, id, k);
    }
  }

  lemma TimelyGaps(h: Hypot, s: Tracker, op: Op, id: int)
    requires Timely(s, op, id)
    ensures Gaps(UpdatesIn(h, s, op, id))
  {
    if op.Submit? {
      var objects := Kept(s.bounds, op.frame.objects);
      if id in Ids(objects) {
        var k :| Once(objects, id, k);
        ListedOnce(h, s.filters, objects, op.now, id, k);
      } else {
        NotListed(h, s.filters, objects, op.now, id);
      }
    }
  }

  lemma {:induction false} RunGaps(h: Hypot, c: Config, s: Tracker, ops: seq<Op>, id: int)
    requires c.Valid() && forall i :: 0 <= i < |ops| ==> Timely(Run(h, c, s, ops[..i]), ops[i], id)
    ensures Gaps(Updates(h, c, s, ops, id))
  {
    if ops != [] {
      var n := |ops| - 1;
      forall i | 0 <= i < n ensures Timely(Run(h, c, s, ops[..n][..i]), ops[..n][i], id) {
        assert ops[..n][..i] == ops[..i];
      }
      RunGaps(h, c, s, ops[..n], id);
      TimelyGaps(h, Run(h, c, s, ops[..n]), ops[n], id);
    }
  }

  /** With one sample to a frame, at later times, the limit is always kept. */
  lemma TimelySpeedIsLimited(h: Hypot, c: Config, s: Tracker, ops: seq<Op>, id: int)
    requires IsHypot(h) && c.Valid() && Followed(s.filters, id)
    requires forall i :: 0 <= i < |ops| ==> StaysTracked(Run(h, c, s, ops[..i]), ops[i], id)
    requires forall i :: 0 <= i < |ops| ==> Timely(Run(h, c, s, ops[..i]), ops[i], id)
    ensures var f := Run(h, c, s, ops).filters;
            id in f.positions
              && Distance(h, s.filters.positions[id], f.positions[id]) <= Allowance(Updates(h, c, s, ops, id))
  {
    RunGaps(h, c, s, ops, id);
    TrackedSpeedIsLimited(h, c, s, ops, id);
  }

  // ---------- inputs that break the limit ----------

  /** After one frame that holds the object at `p`. */
  ghost function Placed(h: Hypot, c: Config, r: Rect, first: Frame, t1: int): Tracker
    requires c.Valid()
  {
    Run(h, c, Fresh(Some(r)), [Submit(first, t1)])
  }

  lemma OneSample(h: Hypot, o: RiskObject, now: int)
    ensures var f, id := ObservedAll(h, NoFilters(), [o], now), o.globalId;
            && Lookup(f.histories, id) == Some([o.worldPosition]) && Lookup(f.positions, id) == Some(o.worldPosition)
            && Lookup(f.times, id) == Some(now)
  {
    assert [o][..0] == [];
    assert ObservedAll(h, NoFilters(), [o], now) == Observed(h, NoFilters(), o.globalId, o.worldPosition, now);
    assert Sampled([], o.worldPosition) == [o.worldPosition];
  }

  lemma TwiceAt(h: Hypot, f: Filters, moved: RiskObject, p: Point, now: int)
    requires Lookup(f.histories, moved.globalId) == Some([p]) && now > 0
    ensures Lookup(ObservedAll(h, f, [moved, moved], now).positions, moved.globalId) == Some(moved.worldPosition)
  {
    var id, q := moved.globalId, moved.worldPosition;
    var once := Observed(h, f, id, q, now);
    assert [moved, moved][..1] == [moved] && [moved][..0] == [];
    assert ObservedAll(h, f, [moved], now) == once;
    assert ObservedAll(h, f, [moved, moved], now) == Observed(h, once, id, q, now);
    assert Sampled([p], q) == [p, q] && Sampled([p, q], q) == [p, q, q];
    OutlierIsRejected(q, p, [p, q, q]);
  }

  lemma PlacedState(h: Hypot, c: Config, r: Rect, first: Frame, t1: int, o: RiskObject)
    requires c.Valid() && first.sourceTimestamp > 0 && t1 > 0 && Kept(Initial(Some(r)), first.objects) == [o]
    ensures var s, id := Placed(h, c, r, first, t1), o.globalId;
            && Lookup(s.filters.histories, id) == Some([o.worldPosition])
               && Lookup(s.filters.positions, id) == Some(o.worldPosition)
            && Lookup(s.filters.times, id) == Some(t1) && s.bounds == Initial(Some(r)) && s.lastInput == Some(first)
               && s.lastArrival == t1
  {
    var s := Fresh(Some(r));
    RunOne(h, c, s, Submit(first, t1));
    ContinuedState(h, c, s, first, t1);
    SubmitFilters(h, c, s, first, t1);
    OneSample(h, o, t1);
  }

  /** Two frames in one millisecond: the second puts the object wherever it says. */
  lemma SameMillisecondJumps(h: Hypot, c: Config, r: Rect, first: Frame, second: Frame, t1: int, o: RiskObject,
                             moved: RiskObject)
    requires c.Valid() && first.sourceTimestamp > 0 && second.sourceTimestamp > 0 && t1 > 0 && first != second
    requires Kept(Initial(Some(r)), first.objects) == [o] && Kept(Initial(Some(r)), second.objects) == [moved]
    requires moved.globalId == o.globalId
    ensures var s := Placed(h, c, r, first, t1);
            && Lookup(s.filters.positions, o.globalId) == Some(o.worldPosition)
            && Lookup(Do(h, c, s, Submit(second, t1)).filters.positions, o.globalId) == Some(moved.worldPosition)
  {
    var s, id := Placed(h, c, r, first, t1), o.globalId;
    PlacedState(h, c, r, first, t1, o);
    SubmitFilters(h, c, s, second, t1);
    assert [moved][..0] == [];
    assert Sampled([o.worldPosition], moved.worldPosition) == [o.worldPosition, moved.worldPosition];
  }

  /** A frame that lists the object twice at the same place: it is there at once, past median and
      limit, whatever the time since the first frame. */
  lemma RepeatedIdJumps(h: Hypot, c: Config, r: Rect, first: Frame, t1: int, second: Frame, t2: int, o: RiskObject,
                        moved: RiskObject)
    requires c.Valid() && first.sourceTimestamp > 0 && second.sourceTimestamp > 0
    requires 0 < t1 <= t2 <= t1 + SOURCE_RESTART_GAP
    requires Kept(Initial(Some(r)), first.objects) == [o] && Kept(Initial(Some(r)), second.objects) == [moved, moved]
    requires moved.globalId == o.globalId
    ensures var s := Placed(h, c, r, first, t1);
            && Lookup(s.filters.positions, o.globalId) == Some(o.worldPosition)
            && Lookup(Do(h, c, s, Submit(second, t2)).filters.positions, o.globalId) == Some(moved.worldPosition)
  {
    var s := Placed(h, c, r, first, t1);
    PlacedState(h, c, r, first, t1, o);
    SubmitFilters(h, c, s, second, t2);
    TwiceAt(h, s.filters, moved, o.worldPosition, t2);
  }
}
