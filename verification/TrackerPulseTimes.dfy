/** When exactly the first pair at risk pulses, and what is remembered of it. */
module TrackerPulseTimes {
  import opened Domain
  import opened TrackerFilters
  import opened TrackerState
  import opened TrackerLifecycle
  import opened TrackerDisplay
  import opened TrackerPulses

  /** A pair that has calmed down from danger to warning waits as if it had just pulsed. */
  predicate CalmsDown(known: Option<PulseState>, level: RiskLevel) {
    known.Some? && known.value.riskLevel == Danger && level == Warning
  }

  /** A pair not known yet pulses at once, one in danger again every 1.5 s, one with a warning every
      1.2 s, and one whose risk rises after 0.4 s. */
  predicate HasWaited(known: Option<PulseState>, level: RiskLevel, now: int) {
    known.None? || known.value.lastPulse <= 0
    || now - known.value.lastPulse >= (if level == Danger then 1500 else 1200)
    || (level.Rank() > known.value.riskLevel.Rank() && now - known.value.lastPulse >= 400)
  }

  /** Any two pulses are 150 ms apart. */
  predicate HasQuiet(lastEmit: int, now: int) { lastEmit <= 0 || now - lastEmit >= 150 }

  predicate MayPulse(known: Option<PulseState>, lastEmit: int, level: RiskLevel, now: int) {
    !CalmsDown(known, level) && HasWaited(known, level, now) && HasQuiet(lastEmit, now)
  }

  function KeyOfPair(pair: PairRisk): (int, int) { (pair.first, pair.second) }

  // ---------- every pair is in the list once ----------

  ghost predicate Distinct(pairs: seq<PairRisk>) {
    forall i, j :: 0 <= i < j < |pairs| ==> KeyOfPair(pairs[i]) != KeyOfPair(pairs[j])
  }

  lemma {:induction false} PairsAreDistinct(objects: seq<RiskObject>, n: nat)
    requires n <= |objects|
    ensures Distinct(Pairs(objects, n))
  {
    if n > 0 { PairsAreDistinct(objects, n - 1); }
  }

  // ---------- the first pair ----------

  /** What the first pair makes of the memory. */
  ghost predicate FirstPulsed(p: Pulses, after: Pulses, pair: PairRisk, current: map<int, Point>, now: int) {
    var key, known := KeyOfPair(pair), Lookup(p.states, KeyOfPair(pair));
    var pulses := MayPulse(known, p.lastEmit, pair.riskLevel, now);
    && (Emits(after.events, |p.events|, key) <==> pulses)
    && (pulses && pair.first in current && pair.second in current ==>
          |after.events| > |p.events| && after.events[|p.events|].riskLevel == pair.riskLevel
          && after.events[|p.events|].position == Midpoint(current[pair.first], current[pair.second]))
    && Lookup(after.states, key)
       == Some(PulseState(pair.riskLevel,
                          if pulses || CalmsDown(known, pair.riskLevel) then now
                          else if known.Some? then known.value.lastPulse else 0, now))
  }

  lemma OnePulsed(p: Pulses, pair: PairRisk, current: map<int, Point>, now: int)
    requires pair.first in current && pair.second in current
    ensures FirstPulsed(p, Pulsed(p, pair, current, now), pair, current, now)
  {
    PulsedPrefix(p, pair, current, now);
    var after := Pulsed(p, pair, current, now);
    if |after.events| > |p.events| {
      assert (after.events[|p.events|].first, after.events[|p.events|].second) == KeyOfPair(pair);
    }
  }

  lemma OtherPulsed(p: Pulses, before: Pulses, pair: PairRisk, other: PairRisk,
                    current: map<int, Point>, now: int)
    requires FirstPulsed(p, before, pair, current, now) && KeyOfPair(other) != KeyOfPair(pair)
    requires |p.events| <= |before.events|
    ensures FirstPulsed(p, Pulsed(before, other, current, now), pair, current, now)
  {
    PulsedPrefix(before, other, current, now);
    var after, n, key := Pulsed(before, other, current, now), |p.events|, KeyOfPair(pair);
    assert forall i :: 0 <= i < |before.events| ==> after.events[i] == before.events[..][i];
    if Emits(before.events, n, key) {
      var i :| n <= i < |before.events| && (before.events[i].first, before.events[i].second) == key;
      assert (after.events[i].first, after.events[i].second) == key;
    }
  }

  lemma {:induction false} AllPulsed(p: Pulses, pairs: seq<PairRisk>, current: map<int, Point>, now: int)
    requires pairs != [] && Distinct(pairs) && pairs[0].first in current && pairs[0].second in current
    ensures FirstPulsed(p, PulsedAll(p, pairs, current, now), pairs[0], current, now)
  {
    var n := |pairs| - 1;
    if n == 0 {
      assert PulsedAll(p, pairs[..0], current, now) == p;
      OnePulsed(p, pairs[0], current, now);
    } else {
      AllPulsed(p, pairs[..n], current, now);
      OnlyAdded(p, pairs[..n], current, now);
      OtherPulsed(p, PulsedAll(p, pairs[..n], current, now), pairs[0], pairs[n], current, now);
    }
  }

  lemma StillRemembered(p: Pulses, now: int, key: (int, int))
    requires key in p.states && p.states[key].lastSeen == now
    ensures Lookup(Remembered(p, now).states, key) == Lookup(p.states, key) && Remembered(p, now).events == p.events
  {}

  /** An object of the latest frame is shown where the drawing has put it. */
  lemma ShownWhereDrawn(c: Config, s: Tracker, now: int, id: int)
    requires Drawable(s) && id in LatestIds(s)
    ensures var d := LatestDrawing(c, Quiet(s), now);
            id in d.current && ShowsPosition(Picture(c, s, now).observed, id, d.current[id])
  {
    var q := Quiet(s);
    DrawnCurrent(c, q, now);
    AllPlaced(c, q, Latest(q), |Latest(q)|, now);
    assert id in LatestDrawing(c, q, now).current;
  }

  /** The positions that the pulses of a snapshot are computed from. */
  function CurrentPositions(c: Config, s: Tracker, now: int): map<int, Point>
    requires s.history != []
  {
    var q := Quiet(s);
    var d := LatestDrawing(c, q, now);
    d.current + Positions(Ghosts(c, q.life, q.filters, d.display, Undrawn(q, d), now))
  }

  lemma CurrentIsShown(c: Config, s: Tracker, now: int, id: int)
    requires Drawable(s) && id in LatestIds(s)
    ensures var current := CurrentPositions(c, s, now);
            id in current && ShowsPosition(Picture(c, s, now).observed, id, current[id])
  {
    DrawnCurrent(c, Quiet(s), now);
    ShownWhereDrawn(c, s, now, id);
  }

  ghost function FirstPairOf(objects: seq<RiskObject>): PairRisk
    requires Pairs(objects, |objects|) != []
  {
    Pairs(objects, |objects|)[0]
  }

  lemma SnapshotPulses(c: Config, s: Tracker, now: int, k: nat)
    requires Drawable(s) && FirstAtRisk(Latest(s), k)
    ensures Pairs(Latest(s), |Latest(s)|) != []
    ensures var pair := FirstPairOf(Latest(s));
            && KeyOfPair(pair) == KeyOf(Latest(s)[k]) && pair.riskLevel == Latest(s)[k].riskLevel
            && pair.first in LatestIds(s) && pair.second in LatestIds(s)
            && FirstPulsed(Quiet(s).pulses, Built(c, s, now).pulses, pair, CurrentPositions(c, s, now), now)
  {
    var q, objects := Quiet(s), Latest(s);
    var d := LatestDrawing(c, q, now);
    FirstPair(objects, k, |objects|);
    PairsDrawn(c, q, objects, |objects|, now);
    PairsAreDistinct(objects, |objects|);
    DrawnCurrent(c, q, now);
    BothInCurrent(objects, k, d.current, d.current);
    PulsedOver(c, q, d, now);
  }

  lemma PulsedOver(c: Config, s: Tracker, d: Drawing, now: int)
    requires d.pairs != [] && Distinct(d.pairs) && d.pairs[0].first in d.current && d.pairs[0].second in d.current
    ensures var ghosts := Ghosts(c, s.life, s.filters, d.display, Undrawn(s, d), now);
            FirstPulsed(s.pulses, Finished(c, s, d, ghosts, now).pulses, d.pairs[0], d.current + Positions(ghosts), now)
  {
    var ghosts := Ghosts(c, s.life, s.filters, d.display, Undrawn(s, d), now);
    var current := d.current + Positions(ghosts);
    AllPulsed(s.pulses, d.pairs, current, now);
    StillRemembered(PulsedAll(s.pulses, d.pairs, current, now), now, KeyOfPair(d.pairs[0]));
    FinishedPulses(c, s, d, ghosts, now);
  }

  lemma FinishedPulses(c: Config, s: Tracker, d: Drawing, ghosts: map<int, Shown>, now: int)
    ensures Finished(c, s, d, ghosts, now).pulses
         == Remembered(PulsedAll(s.pulses, d.pairs, d.current + Positions(ghosts), now), now)
  {}

  /** The first event is of this level, in the middle between the positions shown of the pair. */
  ghost predicate LiesBetween(shown: seq<Shown>, events: seq<RiskEvent>, key: (int, int), level: RiskLevel) {
    exists p, q ::
      && ShowsPosition(shown, key.0, p) && ShowsPosition(shown, key.1, q)
      && events != [] && events[0].riskLevel == level
      && events[0].position.x - p.x == q.x - events[0].position.x
      && events[0].position.y - p.y == q.y - events[0].position.y
  }

  /** In every state, the first pair at risk pulses in a snapshot exactly if it may; then the event lies
      half way between its two objects as shown and has their risk level. What is remembered is its level,
      that it was seen, and, if it pulsed or calmed down, that it did so now. */
  lemma FirstPairPulsesExactly(c: Config, s: Tracker, now: int, k: nat)
    requires Drawable(s) && FirstAtRisk(Latest(s), k)
    ensures var o, key := Latest(s)[k], KeyOf(Latest(s)[k]);
            var known, pulses := Lookup(s.pulses.states, key), Built(c, s, now).pulses;
            && (EmitsAt(c, s, now, key) <==> MayPulse(known, s.pulses.lastEmit, o.riskLevel, now))
            && (EmitsAt(c, s, now, key) ==> LiesBetween(Picture(c, s, now).observed, pulses.events, key, o.riskLevel))
            && Lookup(pulses.states, key)
               == Some(PulseState(o.riskLevel,
                                  if EmitsAt(c, s, now, key) || CalmsDown(known, o.riskLevel) then now
                                  else if known.Some? then known.value.lastPulse else 0, now))
  {
    SnapshotPulses(c, s, now, k);
    var pair := FirstPairOf(Latest(s));
    CurrentIsShown(c, s, now, pair.first);
    CurrentIsShown(c, s, now, pair.second);
    FirstPulsedMeans(Quiet(s).pulses, Built(c, s, now).pulses, Picture(c, s, now).observed, pair,
                     CurrentPositions(c, s, now), now);
  }

  lemma FirstPulsedMeans(p: Pulses, after: Pulses, shown: seq<Shown>, pair: PairRisk, current: map<int, Point>,
                         now: int)
    requires FirstPulsed(p, after, pair, current, now) && p.events == []
    requires pair.first in current && ShowsPosition(shown, pair.first, current[pair.first])
    requires pair.second in current && ShowsPosition(shown, pair.second, current[pair.second])
    ensures var key := KeyOfPair(pair);
            && (Emits(after.events, 0, key) <==> MayPulse(Lookup(p.states, key), p.lastEmit, pair.riskLevel, now))
            && (Emits(after.events, 0, key) ==> LiesBetween(shown, after.events, key, pair.riskLevel))
  {
    if Emits(after.events, 0, KeyOfPair(pair)) {
      MidpointIsHalfWay(current[pair.first], current[pair.second]);
    }
  }

  lemma MidpointIsHalfWay(p: Point, q: Point)
    ensures var m := Midpoint(p, q); m.x - p.x == q.x - m.x && m.y - p.y == q.y - m.y
  {}
}
