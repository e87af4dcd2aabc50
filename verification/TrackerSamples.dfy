/** What the position filter looks at: over whole runs the last three samples of an object, of which it
    takes the middle one on each axis. */
module TrackerSamples {
  import opened Domain
  import opened TrackerFilters
  import opened TrackerState
  import opened TrackerRuns
  import opened TrackerLifecycle
  import opened TrackerMotion

  function LastThree(samples: seq<Point>): seq<Point> {
    if |samples| <= 3 then samples else samples[|samples| - 3..]
  }

  lemma {:induction false} SampledIsLastThree(history: seq<Point>, p: Point)
    ensures Sampled(history, p) == LastThree(history + [p])
    decreases |history|
  {
    if |history| >= MEDIAN_SAMPLE_COUNT {
      SampledIsLastThree(history[1..], p);
      assert history[1..] + [p] == (history + [p])[1..];
    }
  }

  lemma LastThreeMore(history: seq<Point>, samples: seq<Point>, more: seq<Point>)
    ensures LastThree(LastThree(history + samples) + more) == LastThree(history + (samples + more))
  {
    var all := history + samples;
    assert all + more == history + (samples + more);
    if |all| > 3 {
      assert (LastThree(all) + more)[|more|..] == (all + more)[|all| - 3 + |more|..];
    }
  }

  lemma LastThreeOfFew(history: seq<Point>)
    requires |history| <= 3
    ensures LastThree(history + []) == history
  {
    assert history + [] == history;
  }

  // ---------- the samples of one object ----------

  /** Where the frame lists the object, in order. */
  function SamplesOf(objects: seq<RiskObject>, id: int): seq<Point> {
    if objects == [] then []
    else
      var n := |objects| - 1;
      SamplesOf(objects[..n], id) + SampleOf(objects[n], id)
  }

  function HistoryOf(f: Filters, id: int): seq<Point> { Get(f.histories, id, []) }

  lemma {:induction false} FrameHistory(h: Hypot, f: Filters, objects: seq<RiskObject>, now: int, id: int)
    requires |HistoryOf(f, id)| <= 3
    ensures HistoryOf(ObservedAll(h, f, objects, now), id) == LastThree(HistoryOf(f, id) + SamplesOf(objects, id))
  {
    if objects == [] {
      LastThreeOfFew(HistoryOf(f, id));
    } else {
      var n := |objects| - 1;
      FrameHistory(h, f, objects[..n], now, id);
      SampleHistory(h, ObservedAll(h, f, objects[..n], now), objects[n], now, id);
      LastThreeMore(HistoryOf(f, id), SamplesOf(objects[..n], id), SampleOf(objects[n], id));
    }
  }

  function SampleOf(o: RiskObject, id: int): seq<Point> { if o.globalId == id then [o.worldPosition] else [] }

  lemma SampleHistory(h: Hypot, f: Filters, o: RiskObject, now: int, id: int)
    requires |HistoryOf(f, id)| <= 3
    ensures HistoryOf(Observed(h, f, o.globalId, o.worldPosition, now), id)
      == LastThree(HistoryOf(f, id) + SampleOf(o, id))
  {
    SampledIsLastThree(HistoryOf(f, o.globalId), o.worldPosition);
    LastThreeOfFew(HistoryOf(f, id));
  }

  function SamplesIn(s: Tracker, op: Op, id: int): seq<Point> {
    if op.Submit? && Continued(s, op.frame, op.now) then SamplesOf(Kept(s.bounds, op.frame.objects), id) else []
  }

  ghost function Samples(h: Hypot, c: Config, s: Tracker, ops: seq<Op>, id: int): seq<Point>
    requires c.Valid()
  {
    if ops == [] then []
    else
      var n := |ops| - 1;
      Samples(h, c, s, ops[..n], id) + SamplesIn(Run(h, c, s, ops[..n]), ops[n], id)
  }

  lemma RenderHistory(c: Config, s: Tracker, now: int, id: int)
    requires !Stale(s.filters, id, now)
    ensures HistoryOf(Built(c, s, now).filters, id) == HistoryOf(s.filters, id)
  {}

  lemma StepHistory(h: Hypot, c: Config, s: Tracker, op: Op, id: int)
    requires c.Valid() && StaysTracked(s, op, id) && |HistoryOf(s.filters, id)| <= 3
    ensures HistoryOf(Do(h, c, s, op).filters, id) == LastThree(HistoryOf(s.filters, id) + SamplesIn(s, op, id))
  {
    LastThreeOfFew(HistoryOf(s.filters, id));
    match op
    case Submit(frame, now) =>
      SubmitFilters(h, c, s, frame, now);
      if Continued(s, frame, now) { FrameHistory(h, s.filters, Kept(s.bounds, frame.objects), now, id); }
    case Render(now) => RenderHistory(c, s, now, id);
    case Expire(now, expiry) =>
    case Restart =>
  }

  /** Over every run that leaves the object tracked the filter remembers its last three samples. */
  lemma {:induction false} HistoryIsLastThree(h: Hypot, c: Config, s: Tracker, ops: seq<Op>, id: int)
    requires c.Valid() && |HistoryOf(s.filters, id)| <= 3
    requires forall i :: 0 <= i < |ops| ==> StaysTracked(Run(h, c, s, ops[..i]), ops[i], id)
    ensures HistoryOf(Run(h, c, s, ops).filters, id) == LastThree(HistoryOf(s.filters, id) + Samples(h, c, s, ops, id))
  {
    if ops == [] {
      LastThreeOfFew(HistoryOf(s.filters, id));
    } else {
      var n := |ops| - 1;
      forall i | 0 <= i < n ensures StaysTracked(Run(h, c, s, ops[..n][..i]), ops[..n][i], id) {
        assert ops[..n][..i] == ops[..i];
      }
      HistoryIsLastThree(h, c, s, ops[..n], id);
      var before := Run(h, c, s, ops[..n]);
      StepHistory(h, c, before, ops[n], id);
      LastThreeMore(HistoryOf(s.filters, id), Samples(h, c, s, ops[..n], id), SamplesIn(before, ops[n], id));
    }
  }

  // ---------- the middle ----------

  /** One of the three, with one of the others on each side. */
  predicate IsMiddle(m: real, a: real, b: real, c: real) {
    || (m == a && (b <= a <= c || c <= a <= b))
    || (m == b && (a <= b <= c || c <= b <= a))
    || (m == c && (a <= c <= b || b <= c <= a))
  }

  lemma MedianIsMiddle(samples: seq<Point>)
    requires |samples| == 3
    ensures IsMiddle(Median(samples).x, samples[0].x, samples[1].x, samples[2].x)
    ensures IsMiddle(Median(samples).y, samples[0].y, samples[1].y, samples[2].y)
  {
    var xs, ys := Xs(samples), Ys(samples);
    assert xs == [xs[0], xs[1], xs[2]] && ys == [ys[0], ys[1], ys[2]];
    MiddleOfThree(xs[0], xs[1], xs[2]);
    MiddleOfThree(ys[0], ys[1], ys[2]);
  }

  /** An object that has been at `p` twice and is shown there stays there, whatever one sample says. */
  lemma OutlierDoesNotMove(h: Hypot, c: Config, s: Tracker, frame: Frame, now: int, id: int, p: Point, outlier: Point)
    requires c.Valid() && IsHypot(h) && Continued(s, frame, now) && Followed(s.filters, id)
    requires s.filters.positions[id] == p && |HistoryOf(s.filters, id)| <= 3
    requires LastThree(HistoryOf(s.filters, id) + [outlier]) == [p, p, outlier]
    requires SamplesOf(Kept(s.bounds, frame.objects), id) == [outlier]
    ensures Lookup(Submitted(h, c, s, frame, now).0.filters.positions, id) == Some(p)
  {
    var objects := Kept(s.bounds, frame.objects);
    SubmitFilters(h, c, s, frame, now);
    FrameFollows(h, s.filters, objects, now, id);
    OneUpdate(h, s.filters, objects, now, id, outlier);
    OutlierIsRejected(p, outlier, [p, p, outlier]);
    StaysAtTarget(h, p, FrameUpdates(h, s.filters, objects, now, id));
  }

  lemma StaysAtTarget(h: Hypot, p: Point, us: seq<Update>)
    requires IsHypot(h) && |us| == 1 && us[0].target == p
    ensures Follow(h, p, us) == p
  {
    assert us[..0] == [];
    StepTowardsTarget(h, p, p, us[0].gap);
    ZeroDistance(h, p);
  }

  lemma {:induction false} NoUpdate(h: Hypot, f: Filters, objects: seq<RiskObject>, now: int, id: int)
    requires SamplesOf(objects, id) == []
    ensures FrameUpdates(h, f, objects, now, id) == []
  {
    if objects != [] { NoUpdate(h, f, objects[..|objects| - 1], now, id); }
  }

  /** One sample makes one update, towards the median of the last three. */
  lemma {:induction false} OneUpdate(h: Hypot, f: Filters, objects: seq<RiskObject>, now: int, id: int, p: Point)
    requires |HistoryOf(f, id)| <= 3 && SamplesOf(objects, id) == [p]
    ensures var us := FrameUpdates(h, f, objects, now, id);
            |us| == 1 && LastThree(HistoryOf(f, id) + [p]) != []
              && us[0].target == Median(LastThree(HistoryOf(f, id) + [p]))
  {
    var n := |objects| - 1;
    var before := SamplesOf(objects[..n], id);
    assert SamplesOf(objects, id) == before + SampleOf(objects[n], id);
    if objects[n].globalId == id {
      assert |before| == 0 && (before + [objects[n].worldPosition])[0] == p;
      NoUpdate(h, f, objects[..n], now, id);
      FrameHistory(h, f, objects[..n], now, id);
      LastThreeOfFew(HistoryOf(f, id));
      SampledIsLastThree(HistoryOf(f, id), p);
    } else {
      OneUpdate(h, f, objects[..n], now, id, p);
    }
  }
}
