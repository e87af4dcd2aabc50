/** How often risk pulses are emitted: at most one in a snapshot, and for the same pair at a distance. */
module TrackerPulses {
  import opened Domain
  import opened TrackerFilters
  import opened TrackerBounds
  import opened TrackerState
  import opened TrackerRuns
  import opened TrackerLifecycle

  /** After an event in a snapshot no other pair emits one in the same snapshot. */
  lemma {:induction false} OnePulsePerSnapshot(p: Pulses, pairs: seq<PairRisk>, current: map<int, Point>, now: int)
    requires now > 0
    ensures var after := PulsedAll(p, pairs, current, now);
            || (after.events == p.events && after.lastEmit == p.lastEmit)
            || (|after.events| == |p.events| + 1 && after.lastEmit == now
                && (p.lastEmit <= 0 || now - p.lastEmit >= MINIMUM_PULSE_SPACING))
  {
    if pairs != [] {
      OnePulsePerSnapshot(p, pairs[..|pairs| - 1], current, now);
    }
  }

  /** Some event came at `t` or later, and the pair `key` has pulsed no earlier, or long ago. */
  predicate PulsedSince(p: Pulses, key: (int, int), t: int, now: int) {
    && 0 < t <= now && p.lastEmit >= t
    && (now - t >= MINIMUM_PAIR_PULSE_INTERVAL
        || (key in p.states && p.states[key].lastPulse >= t && p.states[key].lastSeen >= t))
  }

  /** Events beyond the first `n` are not of the pair `key`, or late enough. */
  ghost predicate LateEnough(events: seq<RiskEvent>, n: nat, key: (int, int), t: int, now: int) {
    forall i :: n <= i < |events| && (events[i].first, events[i].second) == key ==>
      now - t >= MINIMUM_PAIR_PULSE_INTERVAL
  }

  lemma {:induction false} PulsedAllSince(p: Pulses, pairs: seq<PairRisk>, current: map<int, Point>,
                                          key: (int, int), t: int, before: int, now: int)
    requires PulsedSince(p, key, t, before) && before <= now
    ensures PulsedSince(PulsedAll(p, pairs, current, now), key, t, now)
    ensures |PulsedAll(p, pairs, current, now).events| >= |p.events|
    ensures LateEnough(PulsedAll(p, pairs, current, now).events, |p.events|, key, t, now)
  {
    if pairs != [] {
      PulsedAllSince(p, pairs[..|pairs| - 1], current, key, t, before, now);
    }
  }

  lemma RenderSince(c: Config, s: Tracker, key: (int, int), t: int, before: int, now: int)
    requires PulsedSince(s.pulses, key, t, before) && before <= now
    ensures PulsedSince(Built(c, s, now).pulses, key, t, now)
    ensures LateEnough(Built(c, s, now).pulses.events, 0, key, t, now)
    ensures Built(c, s, now).pulses.events != [] ==> now - t >= MINIMUM_PULSE_SPACING || s.pulses.lastEmit > t
  {
    var q := Quiet(s);
    if Drawable(q) {
      var d := DrawnAll(c, q, Latest(q), |Latest(q)|, now);
      var current := d.current + Positions(Ghosts(c, q.life, q.filters, d.display, Undrawn(q, d), now));
      PulsedAllSince(q.pulses, d.pairs, current, key, t, before, now);
      OnePulsePerSnapshot(q.pulses, d.pairs, current, now);
    }
  }

  function OpTime(op: Op): int {
    match op
    case Submit(_, now) => now
    case Render(now) => now
    case Expire(now, _) => now
    case Restart => 0
  }

  lemma StepSince(h: Hypot, c: Config, s: Tracker, op: Op, key: (int, int), t: int, before: int)
    requires c.Valid() && PulsedSince(s.pulses, key, t, before) && !Resets(s, op) && before <= OpTime(op)
    ensures PulsedSince(Do(h, c, s, op).pulses, key, t, OpTime(op))
  {
    match op
    case Submit(frame, now) =>
    case Render(now) => RenderSince(c, s, key, t, before, now);
    case Expire(now, expiry) =>
  }

  /** Operations that do not reset the tracker, on a clock that does not go back, between two times. */
  ghost predicate Undisturbed(h: Hypot, c: Config, s: Tracker, ops: seq<Op>, from: int, to: int)
    requires c.Valid()
  {
    && from <= to
    && (forall i :: 0 <= i < |ops| ==> !Resets(Run(h, c, s, ops[..i]), ops[i]) && from <= OpTime(ops[i]) <= to)
    && (forall i, j :: 0 <= i < j < |ops| ==> OpTime(ops[i]) <= OpTime(ops[j]))
  }

  function LastTime(ops: seq<Op>, from: int): int { if ops == [] then from else OpTime(ops[|ops| - 1]) }

  lemma {:induction false} RunSince(h: Hypot, c: Config, s: Tracker, ops: seq<Op>, key: (int, int), t: int, now: int)
    requires c.Valid() && PulsedSince(s.pulses, key, t, t) && Undisturbed(h, c, s, ops, t, now)
    ensures PulsedSince(Run(h, c, s, ops).pulses, key, t, LastTime(ops, t))
  {
    if ops != [] {
      var n := |ops| - 1;
      UndisturbedPrefix(h, c, s, ops, t, now);
      RunSince(h, c, s, ops[..n], key, t, now);
      StepSince(h, c, Run(h, c, s, ops[..n]), ops[n], key, t, LastTime(ops[..n], t));
    }
  }

  lemma UndisturbedPrefix(h: Hypot, c: Config, s: Tracker, ops: seq<Op>, from: int, to: int)
    requires c.Valid() && Undisturbed(h, c, s, ops, from, to) && ops != []
    ensures var n := |ops| - 1;
            Undisturbed(h, c, s, ops[..n], from, to) && !Resets(Run(h, c, s, ops[..n]), ops[n])
              && LastTime(ops[..n], from) <= OpTime(ops[n])
  {
    var n := |ops| - 1;
    forall i | 0 <= i < n ensures !Resets(Run(h, c, s, ops[..n][..i]), ops[..n][i]) {
      assert ops[..n][..i] == ops[..i];
    }
  }

  // ---------- from one event to the next ----------

  ghost predicate Emits(events: seq<RiskEvent>, n: nat, key: (int, int)) {
    exists i :: n <= i < |events| && (events[i].first, events[i].second) == key
  }

  lemma EventStarts(p: Pulses, pair: PairRisk, current: map<int, Point>, now: int)
    requires now > 0 && |Pulsed(p, pair, current, now).events| > |p.events|
    ensures PulsedSince(Pulsed(p, pair, current, now), (pair.first, pair.second), now, now)
    ensures var e := Pulsed(p, pair, current, now).events[|p.events|]; (e.first, e.second) == (pair.first, pair.second)
  {}

  lemma StaysPulsed(p: Pulses, pair: PairRisk, current: map<int, Point>, key: (int, int), now: int)
    requires PulsedSince(p, key, now, now)
    ensures PulsedSince(Pulsed(p, pair, current, now), key, now, now)
  {}

  /** Whenever a snapshot emits an event of a pair, that pair is recorded as having pulsed then. */
  lemma {:induction false} EventsStart(p: Pulses, pairs: seq<PairRisk>, current: map<int, Point>, key: (int, int),
                                       now: int)
    requires now > 0 && Emits(PulsedAll(p, pairs, current, now).events, |p.events|, key)
    ensures PulsedSince(PulsedAll(p, pairs, current, now), key, now, now)
  {
    if pairs != [] {
      var n := |pairs| - 1;
      var before := PulsedAll(p, pairs[..n], current, now);
      OnlyAdded(p, pairs[..n], current, now);
      if Emits(before.events, |p.events|, key) {
        EventsStart(p, pairs[..n], current, key, now);
        StaysPulsed(before, pairs[n], current, key, now);
      } else {
        EventIsNew(before, pairs[n], current, key, |p.events|, now);
      }
    }
  }

  lemma EventIsNew(p: Pulses, pair: PairRisk, current: map<int, Point>, key: (int, int), n: nat, now: int)
    requires now > 0 && n <= |p.events| && !Emits(p.events, n, key)
    requires Emits(Pulsed(p, pair, current, now).events, n, key)
    ensures PulsedSince(Pulsed(p, pair, current, now), key, now, now)
  {
    PulsedPrefix(p, pair, current, now);
    if |Pulsed(p, pair, current, now).events| > |p.events| { EventStarts(p, pair, current, now); }
  }

  lemma PulsedPrefix(p: Pulses, pair: PairRisk, current: map<int, Point>, now: int)
    ensures var events := Pulsed(p, pair, current, now).events;
            |p.events| <= |events| <= |p.events| + 1 && events[..|p.events|] == p.events
  {}

  lemma {:induction false} OnlyAdded(p: Pulses, pairs: seq<PairRisk>, current: map<int, Point>, now: int)
    ensures |PulsedAll(p, pairs, current, now).events| >= |p.events|
  {
    if pairs != [] { OnlyAdded(p, pairs[..|pairs| - 1], current, now); }
  }

  ghost predicate EmitsAt(c: Config, s: Tracker, now: int, key: (int, int)) {
    Emits(Built(c, s, now).pulses.events, 0, key)
  }

  lemma SnapshotStarts(c: Config, s: Tracker, now: int, key: (int, int))
    requires now > 0 && EmitsAt(c, s, now, key)
    ensures PulsedSince(Built(c, s, now).pulses, key, now, now)
  {
    var q := Quiet(s);
    if Drawable(q) {
      var d := DrawnAll(c, q, Latest(q), |Latest(q)|, now);
      var current := d.current + Positions(Ghosts(c, q.life, q.filters, d.display, Undrawn(q, d), now));
      EventsStart(q.pulses, d.pairs, current, key, now);
    }
  }

  /** Two events of the same pair are at least 400 ms apart, whatever happens in between, unless the
      tracker is reset. */
  lemma PairPulsesAreSpaced(h: Hypot, c: Config, s: Tracker, first: int, ops: seq<Op>, second: int, key: (int, int))
    requires c.Valid() && first > 0 && EmitsAt(c, s, first, key)
    requires Undisturbed(h, c, Built(c, s, first), ops, first, second)
    requires EmitsAt(c, Run(h, c, Built(c, s, first), ops), second, key)
    ensures second - first >= MINIMUM_PAIR_PULSE_INTERVAL
  {
    SnapshotStarts(c, s, first, key);
    RunSince(h, c, Built(c, s, first), ops, key, first, second);
    RenderSince(c, Run(h, c, Built(c, s, first), ops), key, first, LastTime(ops, first), second);
  }

  // ---------- across a reset ----------

  function KeyOf(o: RiskObject): (int, int) {
    if o.nearestId < o.globalId then (o.nearestId, o.globalId) else (o.globalId, o.nearestId)
  }

  /** Object `k` of the frame is at risk; of objects with the same id only the first counts. */
  ghost predicate Counts(objects: seq<RiskObject>, k: nat) {
    k < |objects| && AtRisk(objects[k], objects) && objects[k].globalId !in Ids(objects[..k])
  }

  ghost predicate FirstAtRisk(objects: seq<RiskObject>, k: nat) {
    Counts(objects, k) && forall j :: 0 <= j < k ==> !Counts(objects, j)
  }

  lemma {:induction false} FirstExists(objects: seq<RiskObject>, n: nat) returns (k: nat)
    requires exists j :: 0 <= j < n && Counts(objects, j)
    ensures FirstAtRisk(objects, k)
  {
    if j :| 0 <= j < n - 1 && Counts(objects, j) {
      k := FirstExists(objects, n - 1);
    } else {
      k := n - 1;
    }
  }

  ghost predicate StartsWith(pairs: seq<PairRisk>, key: (int, int)) {
    pairs != [] && (pairs[0].first, pairs[0].second) == key
  }

  /** The pairs at risk among the first `n` objects, each once, in order. */
  ghost function Pairs(objects: seq<RiskObject>, n: nat): seq<PairRisk>
    requires n <= |objects|
  {
    if n == 0 then []
    else if objects[n - 1].globalId in Ids(objects[..n - 1]) then Pairs(objects, n - 1)
    else WithPair(Pairs(objects, n - 1), objects[n - 1], objects)
  }

  lemma {:induction false} PairsDrawn(c: Config, s: Tracker, objects: seq<RiskObject>, n: nat, now: int)
    requires n <= |objects|
    ensures DrawnAll(c, s, objects, n, now).pairs == Pairs(objects, n)
  {
    if n > 0 {
      PairsDrawn(c, s, objects, n - 1, now);
      DrawnAllListed(c, s, objects, n - 1, now);
      assert DrawnAll(c, s, objects, n - 1, now).current.Keys == Ids(objects[..n - 1]);
    }
  }

  lemma {:induction false} NoPairYet(objects: seq<RiskObject>, n: nat)
    requires n <= |objects| && forall j :: 0 <= j < n ==> !Counts(objects, j)
    ensures Pairs(objects, n) == []
  {
    if n > 0 {
      NoPairYet(objects, n - 1);
      assert !Counts(objects, n - 1);
    }
  }

  lemma {:induction false} FirstPair(objects: seq<RiskObject>, k: nat, n: nat)
    requires FirstAtRisk(objects, k) && k < n <= |objects|
    ensures StartsWith(Pairs(objects, n), KeyOf(objects[k])) && Pairs(objects, n)[0].riskLevel == objects[k].riskLevel
  {
    if n > k + 1 {
      FirstPair(objects, k, n - 1);
    } else {
      NoPairYet(objects, k);
    }
  }

  /** Without memory of earlier pulses the first pair pulses at once. */
  lemma {:induction false} FirstPairPulses(p: Pulses, pairs: seq<PairRisk>, current: map<int, Point>, now: int,
                                           key: (int, int))
    requires p == NoPulses() && StartsWith(pairs, key) && key.0 in current && key.1 in current
    ensures Emits(PulsedAll(p, pairs, current, now).events, 0, key)
  {
    var n := |pairs| - 1;
    if n == 0 {
      var events := PulsedAll(p, pairs, current, now).events;
      assert PulsedAll(p, [], current, now) == p;
      assert (events[0].first, events[0].second) == key;
    } else {
      FirstPairPulses(p, pairs[..n], current, now, key);
      StillEmits(PulsedAll(p, pairs[..n], current, now), pairs[n], current, now, key);
    }
  }

  lemma StillEmits(p: Pulses, pair: PairRisk, current: map<int, Point>, now: int, key: (int, int))
    requires Emits(p.events, 0, key)
    ensures Emits(Pulsed(p, pair, current, now).events, 0, key)
  {
    PulsedPrefix(p, pair, current, now);
    var i :| 0 <= i < |p.events| && (p.events[i].first, p.events[i].second) == key;
    assert Pulsed(p, pair, current, now).events[..|p.events|][i] == p.events[i];
  }

  lemma BothInCurrent(objects: seq<RiskObject>, k: nat, drawn: map<int, Point>, current: map<int, Point>)
    requires Counts(objects, k) && drawn.Keys == Ids(objects) && drawn.Keys <= current.Keys
    ensures KeyOf(objects[k]).0 in current && KeyOf(objects[k]).1 in current
  {
    assert objects[k].globalId in Ids(objects);
  }

  /** Nothing is remembered of pulses, and the latest frame holds a pair at risk. */
  lemma PulsesAtOnce(c: Config, s: Tracker, now: int, k: nat)
    requires Drawable(s) && s.pulses.(events := []) == NoPulses() && FirstAtRisk(Latest(s), k)
    ensures EmitsAt(c, s, now, KeyOf(Latest(s)[k]))
  {
    var q, objects := Quiet(s), Latest(s);
    var d := LatestDrawing(c, q, now);
    FirstPair(objects, k, |objects|);
    PairsDrawn(c, q, objects, |objects|, now);
    DrawnCurrent(c, q, now);
    var current := d.current + Positions(Ghosts(c, q.life, q.filters, d.display, Undrawn(q, d), now));
    BothInCurrent(objects, k, d.current, current);
    FirstPairPulses(q.pulses, d.pairs, current, now, KeyOf(objects[k]));
  }

  lemma SubmitPulses(h: Hypot, c: Config, s: Tracker, op: Op)
    requires c.Valid() && op.Submit?
    ensures Do(h, c, s, op).pulses == if Resets(s, op) then NoPulses() else s.pulses
  {}

  lemma {:induction false} FramesKeepPulses(h: Hypot, c: Config, s: Tracker, frames: seq<Op>)
    requires c.Valid() && s.pulses == NoPulses() && forall i :: 0 <= i < |frames| ==> frames[i].Submit?
    ensures Run(h, c, s, frames).pulses == NoPulses()
  {
    if frames != [] {
      var n := |frames| - 1;
      FramesKeepPulses(h, c, s, frames[..n]);
      SubmitPulses(h, c, Run(h, c, s, frames[..n]), frames[n]);
    }
  }

  /** A reset, of whatever kind and in whatever state, forgets when pairs last pulsed: after any frames
      the next snapshot emits an event of the first pair at risk, if there is one, however little time
      has passed since that pair pulsed before. */
  lemma ResetForgetsPulses(h: Hypot, c: Config, s: Tracker, reset: Op, frames: seq<Op>, now: int) returns (k: nat)
    requires c.Valid() && Resets(s, reset) && forall i :: 0 <= i < |frames| ==> frames[i].Submit?
    requires var z := Run(h, c, Do(h, c, s, reset), frames);
      Drawable(z) && exists j :: 0 <= j < |Latest(z)| && Counts(Latest(z), j)
    ensures var z := Run(h, c, Do(h, c, s, reset), frames);
            FirstAtRisk(Latest(z), k) && EmitsAt(c, z, now, KeyOf(Latest(z)[k]))
  {
    var z := Run(h, c, Do(h, c, s, reset), frames);
    k := FirstExists(Latest(z), |Latest(z)|);
    if reset.Submit? { SubmitPulses(h, c, s, reset); }
    FramesKeepPulses(h, c, Do(h, c, s, reset), frames);
    PulsesAtOnce(c, z, now, k);
  }

  // ---------- an input for each reset ----------

  /** The operations that end with a frame after a reset at `at`. */
  function Again(reset: Op, frame: Frame, at: int): seq<Op> {
    if reset.Submit? then [reset] else [reset, Submit(frame, at)]
  }

  /** A frame, a snapshot at `first`, a reset, the frame again if the reset is not itself its arrival,
      and a snapshot at `second`: the same pair pulses in both. */
  lemma PulsesTwiceAcrossReset(h: Hypot, c: Config, r: Rect, frame: Frame, start: int, first: int, reset: Op, at: int,
                               second: int) returns (key: (int, int))
    requires c.Valid() && 0 < start && 0 < at && frame.sourceTimestamp > 0
    requires var objects := Kept(Initial(Some(r)), frame.objects); exists j :: 0 <= j < |objects| && Counts(objects, j)
    requires reset.Submit? ==> reset.frame == frame && reset.now - start > SOURCE_RESTART_GAP
    requires reset.Expire? ==> reset.now - start > reset.expiry
    requires !reset.Render?
    ensures var shown := Submitted(h, c, Fresh(Some(r)), frame, start).0;
            && EmitsAt(c, shown, first, key)
            && EmitsAt(c, Run(h, c, Built(c, shown, first), Again(reset, frame, at)), second, key)
  {
    var s, objects := Fresh(Some(r)), Kept(Initial(Some(r)), frame.objects);
    var k := FirstExists(objects, |objects|);
    key := KeyOf(objects[k]);
    ContinuedState(h, c, s, frame, start);
    var shown := Submitted(h, c, s, frame, start).0;
    SubmitPulses(h, c, s, Submit(frame, start));
    PulsesAtOnce(c, shown, first, k);
    BuiltHistory(c, shown, first);
    BuiltInput(c, shown, first);
    ShownAgain(h, c, r, Built(c, shown, first), frame, reset, at);
    PulsesAtOnce(c, Run(h, c, Built(c, shown, first), Again(reset, frame, at)), second, k);
  }

  lemma ShownAgain(h: Hypot, c: Config, r: Rect, s: Tracker, frame: Frame, reset: Op, at: int)
    requires c.Valid() && s.history != [] && Resets(s, reset) && s.bounds == Initial(Some(r))
    requires frame.sourceTimestamp > 0 && at > 0
    requires reset.Submit? ==> reset.frame == frame
    ensures var z := Run(h, c, s, Again(reset, frame, at));
            z.pulses == NoPulses() && Drawable(z) && Latest(z) == Kept(Initial(Some(r)), frame.objects)
  {
    if reset.Submit? {
      RunOne(h, c, s, reset);
      SubmitPulses(h, c, s, reset);
      ContinuedState(h, c, Restarted(s), frame, reset.now);
      SubmitPulses(h, c, Restarted(s), reset);
    } else {
      var z := Do(h, c, s, reset);
      RunTwo(h, c, s, reset, Submit(frame, at));
      ContinuedState(h, c, z, frame, at);
      SubmitPulses(h, c, z, Submit(frame, at));
    }
  }
}
