/** The state of the live object tracker and what each operation makes of it, as values. Objects
    are keyed by their global id. */
module TrackerState {
  import opened Domain
  import opened TrackerFilters
  import opened TrackerBounds

  const SOURCE_RESTART_GAP := 5000
  const WARNING_PULSE_REPEAT := 1200
  const DANGER_PULSE_REPEAT := 1500
  const MINIMUM_PAIR_PULSE_INTERVAL := 400
  const MINIMUM_PULSE_SPACING := 150
  const PAIR_PULSE_STATE_RETENTION := 5000

  datatype RiskLevel = Normal | Warning | Danger {
    function Rank(): nat { match this case Normal => 0 case Warning => 1 case Danger => 2 }
  }

  datatype RiskObject = RiskObject(globalId: int, worldPosition: Point, riskLevel: RiskLevel, nearestId: int,
                                   zoneId: int)
  datatype Frame = Frame(sourceTimestamp: int, riskLevel: RiskLevel, objects: seq<RiskObject>)

  datatype Config = Config(
    world: WorldConfig, positionTransitionMsec: int, fadeInMsec: int, missingGraceMsec: int, fadeOutMsec: int,
    maximumHistorySize: int)
  {
    predicate Valid() {
      && world.Valid() && positionTransitionMsec >= 0 && fadeInMsec >= 0 && missingGraceMsec >= 0 && fadeOutMsec >= 0
      && 2 <= maximumHistorySize <= 128
    }
  }

  datatype Filters = Filters(histories: map<int, seq<Point>>, positions: map<int, Point>, times: map<int, int>)
  datatype Lifecycle = Lifecycle(retained: map<int, RiskObject>, missingSince: map<int, int>, missingIds: set<int>)
  datatype Display = Display(transitions: map<int, Transition>, opacities: map<int, real>, opacityTimes: map<int, int>)

  datatype PulseState = PulseState(riskLevel: RiskLevel, lastPulse: int, lastSeen: int)
  datatype PairRisk = PairRisk(first: int, second: int, riskLevel: RiskLevel)
  datatype RiskEvent = RiskEvent(first: int, second: int, position: Point, riskLevel: RiskLevel)
  datatype Pulses = Pulses(states: map<(int, int), PulseState>, lastEmit: int, events: seq<RiskEvent>)

  datatype Tracker = Tracker(
    history: seq<Frame>, lastInput: Option<Frame>, filters: Filters, bounds: Bounds, life: Lifecycle,
    display: Display, previous: map<int, Point>, pulses: Pulses,
    frameSequence: int, measuredInterval: int, lastArrival: int)

  function NoFilters(): Filters { Filters(map[], map[], map[]) }
  function NoLife(): Lifecycle { Lifecycle(map[], map[], {}) }
  function NoDisplay(): Display { Display(map[], map[], map[]) }
  function NoPulses(): Pulses { Pulses(map[], 0, []) }

  function Fresh(configured: Option<Rect>): Tracker {
    Tracker([], None, NoFilters(), Initial(configured), NoLife(), NoDisplay(), map[], NoPulses(), 0, 0, 0)
  }

  /** `reset`: everything but the world bounds and the frame number. */
  function Restarted(s: Tracker): Tracker {
    Tracker([], None, NoFilters(), Forgotten(s.bounds), NoLife(), NoDisplay(), map[], NoPulses(), s.frameSequence, 0, 0)
  }

  function Get<K, V>(m: map<K, V>, k: K, default: V): V {
    if k in m then m[k] else default
  }

  // ---------- a frame arrives ----------

  /** One object's sample through median and speed limit. */
  function Observed(h: Hypot, f: Filters, id: int, p: Point, now: int): Filters {
    var history := Sampled(Get(f.histories, id, []), p);
    var median := Median(history);
    var before := Get(f.times, id, 0);
    var position :=
      if id !in f.positions || before <= 0 || now <= before || now - before > POSITION_FILTER_RESET_GAP then median
      else Limited(h, f.positions[id], median, now - before);
    Filters(f.histories[id := history], f.positions[id := position], f.times[id := now])
  }

  function ObservedAll(h: Hypot, f: Filters, objects: seq<RiskObject>, now: int): Filters {
    if objects == [] then f
    else
      var o := objects[|objects| - 1];
      Observed(h, ObservedAll(h, f, objects[..|objects| - 1], now), o.globalId, o.worldPosition, now)
  }

  function TargetOf(f: Filters, o: RiskObject): Point { Get(f.positions, o.globalId, o.worldPosition) }

  function Targets(f: Filters, objects: seq<RiskObject>): (r: seq<Point>)
    ensures |r| == |objects|
  {
    seq(|objects|, i requires 0 <= i < |objects| => TargetOf(f, objects[i]))
  }

  function Ids(objects: seq<RiskObject>): (r: set<int>) {
    set i | 0 <= i < |objects| :: objects[i].globalId
  }

  /** Objects of the frame are retained and no longer missing. */
  function Seen(life: Lifecycle, objects: seq<RiskObject>): Lifecycle {
    if objects == [] then life
    else
      var o, before := objects[|objects| - 1], Seen(life, objects[..|objects| - 1]);
      Lifecycle(before.retained[o.globalId := o], before.missingSince - {o.globalId}, before.missingIds - {o.globalId})
  }

  function Retention(c: Config): int { c.missingGraceMsec + if c.fadeOutMsec < 0 then 0 else c.fadeOutMsec }

  /** Omitted by a frame at `now` for longer than grace and fade-out. */
  predicate Overdue(life: Lifecycle, id: int, now: int, retention: int) {
    var since := Get(life.missingSince, id, 0);
    since > 0 && now - since > retention
  }

  function Gone(life: Lifecycle, candidates: set<int>, now: int, retention: int): set<int> {
    set id | id in candidates && Overdue(life, id, now, retention)
  }

  function Starting(life: Lifecycle, candidates: set<int>, now: int): map<int, int> {
    map id | id in candidates && Get(life.missingSince, id, 0) <= 0 :: now
  }

  /** What happens to the candidates, retained objects that the frame at `now` omits: overdue ones
      go, new ones start to be missing now. */
  function Omitted(life: Lifecycle, candidates: set<int>, now: int, retention: int): Lifecycle {
    Without(life, Gone(life, candidates, now, retention), Starting(life, candidates, now))
  }

  function Without(life: Lifecycle, gone: set<int>, starting: map<int, int>): Lifecycle {
    Lifecycle(life.retained - gone, (life.missingSince - gone) + starting, life.missingIds - gone)
  }

  function Measured(measured: int, delta: int): int {
    if !(0 < delta <= SOURCE_RESTART_GAP) then measured
    else if measured <= 0 then delta else (measured * 3 + delta) / 4
  }

  function Trimmed(history: seq<Frame>, maximum: int): (r: seq<Frame>)
    requires maximum >= 1
    ensures history != [] ==> r != [] && r[|r| - 1] == history[|history| - 1]
    ensures forall f :: f in r ==> f in history
    decreases |history|
  {
    if |history| > maximum then Trimmed(history[1..], maximum) else history
  }

  function Kept(b: Bounds, objects: seq<RiskObject>): (r: seq<RiskObject>)
    ensures forall o :: o in r ==> o in objects && Acceptable(b, o.worldPosition)
  {
    if objects == [] then []
    else
      var o := objects[|objects| - 1];
      Kept(b, objects[..|objects| - 1]) + if Acceptable(b, o.worldPosition) then [o] else []
  }

  function LifeAfter(life: Lifecycle, objects: seq<RiskObject>, now: int, retention: int): Lifecycle {
    var seen := Seen(life, objects);
    Omitted(seen, seen.retained.Keys - Ids(objects), now, retention)
  }

  function Counted(s: Tracker, frame: Frame, delta: int): Tracker {
    s.(lastInput := Some(frame), frameSequence := s.frameSequence + 1,
       measuredInterval := Measured(s.measuredInterval, delta))
  }

  function Located(h: Hypot, c: Config, s: Tracker, sourceTimestamp: int, objects: seq<RiskObject>, now: int): Tracker {
    var filters := ObservedAll(h, s.filters, objects, now);
    s.(filters := filters, bounds := Updated(s.bounds, sourceTimestamp, Targets(filters, objects), c.world))
  }

  function Recorded(c: Config, s: Tracker, frame: Frame, now: int): Tracker
    requires c.Valid()
  {
    s.(life := LifeAfter(s.life, frame.objects, now, Retention(c)),
       history := Trimmed(s.history + [frame], c.maximumHistorySize))
  }

  /** A new frame, after restart and duplicate tests. */
  function Accept(h: Hypot, c: Config, s: Tracker, frame: Frame, now: int, delta: int): Tracker
    requires c.Valid()
  {
    var objects := Kept(s.bounds, frame.objects);
    Recorded(c, Located(h, c, Counted(s, frame, delta), frame.sourceTimestamp, objects, now),
             frame.(objects := objects), now)
  }

  /** The state in which an arriving frame is judged. */
  function Arrived(s: Tracker, now: int): Tracker {
    (if s.lastArrival > 0 && now - s.lastArrival > SOURCE_RESTART_GAP then Restarted(s) else s).(lastArrival := now)
  }

  function Delta(s: Tracker, now: int): int { if s.lastArrival > 0 then now - s.lastArrival else 0 }

  function Submitted(h: Hypot, c: Config, s: Tracker, frame: Frame, now: int): (r: (Tracker, bool))
    requires c.Valid()
  {
    if frame.sourceTimestamp <= 0 || now <= 0 then (s, false)
    else if Arrived(s, now).lastInput == Some(frame) then (Arrived(s, now), false)
    else (Accept(h, c, Arrived(s, now), frame, now, Delta(s, now)), true)
  }

  function Expired(s: Tracker, now: int, expiry: int): Tracker {
    if s.history == [] || now - s.lastArrival <= expiry then s else Restarted(s)
  }

  // ---------- a snapshot is built ----------

  datatype Shown = Shown(id: int, position: Point, velocity: Point, zoneId: int, riskLevel: RiskLevel, opacity: real,
                         observed: bool)

  datatype Drawing = Drawing(display: Display, current: map<int, Point>, objects: seq<Shown>, pairs: seq<PairRisk>)

  function TransitionDuration(c: Config, measured: int): int {
    if c.positionTransitionMsec <= 0 then 0
    else if measured <= 0 then c.positionTransitionMsec
    else
      var upper := if c.positionTransitionMsec > MAXIMUM_POSITION_TRANSITION then c.positionTransitionMsec
                   else MAXIMUM_POSITION_TRANSITION;
      if measured < c.positionTransitionMsec then c.positionTransitionMsec else if measured > upper then upper
        else measured
  }

  function Quotient(n: int, d: int): (q: real)
    requires d > 0
    ensures n >= 0 ==> q >= 0.0
  {
    n as real / d as real
  }

  /** Opacity of an object that the latest frame holds. */
  function PresentOpacity(c: Config, d: Display, id: int, now: int): real {
    var elapsed := now - Get(d.opacityTimes, id, now);
    var bounded := if elapsed < 0 then 0 else if elapsed > 100 then 100 else elapsed;
    if id !in d.opacities || c.fadeInMsec <= 0 then 1.0 else Min(1.0, d.opacities[id] + Quotient(bounded, c.fadeInMsec))
  }

  /** Opacity of an object omitted for `age` milliseconds. */
  function MissingOpacity(c: Config, d: Display, id: int, age: int): real {
    var opacity := Get(d.opacities, id, 0.0);
    if age <= c.missingGraceMsec then opacity
    else if c.fadeOutMsec <= 0 then 0.0
    else Min(opacity, 1.0 - Bounded(0.0, Quotient(age - c.missingGraceMsec, c.fadeOutMsec), 1.0))
  }

  function WithOpacity(d: Display, id: int, opacity: real, now: int): Display {
    d.(opacities := d.opacities[id := opacity], opacityTimes := d.opacityTimes[id := now])
  }

  function Minus(p: Point, q: Point): Point { Point(p.x - q.x, p.y - q.y) }

  function Lookup<K, V>(m: map<K, V>, k: K): Option<V> { if k in m then Some(m[k]) else None }

  /** The zone of the last object with this id. */
  function ZoneOf(objects: seq<RiskObject>, id: int): int {
    if objects == [] then -1
    else if objects[|objects| - 1].globalId == id then objects[|objects| - 1].zoneId
    else ZoneOf(objects[..|objects| - 1], id)
  }

  /** An observed pair at risk: neighbours under the same camera group (zones divide by 4). */
  predicate AtRisk(o: RiskObject, objects: seq<RiskObject>) {
    var nearest := ZoneOf(objects, o.nearestId);
    && o.nearestId > 0 && o.nearestId in Ids(objects) && o.riskLevel != Normal
    && o.zoneId >= 0 && nearest >= 0 && o.zoneId / 4 == nearest / 4
  }

  predicate HasPair(pairs: seq<PairRisk>, first: int, second: int) {
    exists i :: 0 <= i < |pairs| && pairs[i].first == first && pairs[i].second == second
  }

  function WithPair(pairs: seq<PairRisk>, o: RiskObject, objects: seq<RiskObject>): seq<PairRisk> {
    var first := if o.nearestId < o.globalId then o.nearestId else o.globalId;
    var second := if o.nearestId < o.globalId then o.globalId else o.nearestId;
    if !AtRisk(o, objects) || HasPair(pairs, first, second) then pairs
    else pairs + [PairRisk(first, second, o.riskLevel)]
  }

  /** One object of the latest frame is drawn; a second one with the same id only refreshes the opacity. */
  function DrawnObserved(c: Config, f: Filters, previous: map<int, Point>, frameSequence: int, measured: int,
                         objects: seq<RiskObject>, d: Drawing, o: RiskObject, now: int): Drawing
  {
    var id := o.globalId;
    var opacity := PresentOpacity(c, d.display, id, now);
    var display := WithOpacity(d.display, id, opacity, now);
    if id in d.current then d.(display := display)
    else
      var duration := TransitionDuration(c, measured);
      var t := Retargeted(Lookup(display.transitions, id), TargetOf(f, o), frameSequence, duration, now);
      var position := Rendered(t, duration, now);
      var shown := Shown(id, position, Minus(position, Get(previous, id, position)), o.zoneId, o.riskLevel,
                         Bounded(0.0, opacity, 1.0), true);
      Drawing(display.(transitions := display.transitions[id := t]), d.current[id := position], d.objects + [shown],
              WithPair(d.pairs, o, objects))
  }

  function DrawnAll(c: Config, s: Tracker, objects: seq<RiskObject>, n: nat, now: int): Drawing
    requires n <= |objects|
  {
    if n == 0 then Drawing(s.display, map[], [], [])
    else DrawnObserved(c, s.filters, s.previous, s.frameSequence, s.measuredInterval, objects,
                       DrawnAll(c, s, objects, n - 1, now), objects[n - 1], now)
  }

  function MissingAge(life: Lifecycle, id: int, now: int): int {
    var since := Get(life.missingSince, id, 0);
    if since > 0 && now > since then now - since else 0
  }

  /** The missing objects that are still shown, each with its fading opacity, at its last target.
      The order in which they are appended is left open. */
  function Ghosts(c: Config, life: Lifecycle, f: Filters, d: Display, candidates: set<int>, now: int): map<int, Shown> {
    map id | id in candidates && id in life.retained && MissingAge(life, id, now) <= Retention(c) ::
      Shown(id, TargetOf(f, life.retained[id]), Point(0.0, 0.0), life.retained[id].zoneId, life.retained[id].riskLevel,
            Bounded(0.0, MissingOpacity(c, d, id, MissingAge(life, id, now)), 1.0), false)
  }

  /** The opacities of the missing objects that are shown. */
  function Faded(c: Config, life: Lifecycle, d: Display, ghosts: set<int>, now: int): Display {
    d.(opacities := d.opacities + map id | id in ghosts :: MissingOpacity(c, d, id, MissingAge(life, id, now)),
       opacityTimes := d.opacityTimes + map id | id in ghosts :: now)
  }

  /** Retained objects that are neither drawn nor shown as missing have expired. */
  function LifeWithout(life: Lifecycle, expired: set<int>, ghosts: set<int>): Lifecycle {
    Lifecycle(life.retained - expired, life.missingSince - expired, (life.missingIds + ghosts) - expired)
  }

  // ---------- pulses ----------

  function PulseRepeat(level: RiskLevel): int { if level == Danger then DANGER_PULSE_REPEAT else WARNING_PULSE_REPEAT }

  predicate PulseDue(state: PulseState, level: RiskLevel, now: int) {
    var since := now - state.lastPulse;
    || state.lastPulse <= 0 || since >= PulseRepeat(level)
    || (level.Rank() > state.riskLevel.Rank() && since >= MINIMUM_PAIR_PULSE_INTERVAL)
  }

  function Midpoint(p: Point, q: Point): Point { Point((p.x + q.x) * 0.5, (p.y + q.y) * 0.5) }

  /** One pair in one snapshot: nothing, a silent step down, or an event. */
  function Pulsed(p: Pulses, pair: PairRisk, current: map<int, Point>, now: int): Pulses {
    var key := (pair.first, pair.second);
    var before := Get(p.states, key, PulseState(Normal, 0, 0));
    var state := PulseState(pair.riskLevel, before.lastPulse, now);
    if before.riskLevel == Danger && pair.riskLevel == Warning
      then p.(states := p.states[key := state.(lastPulse := now)])
    else if !PulseDue(before, pair.riskLevel, now)
         || (p.lastEmit > 0 && now - p.lastEmit < MINIMUM_PULSE_SPACING)
         || pair.first !in current || pair.second !in current then p.(states := p.states[key := state])
    else Pulses(p.states[key := state.(lastPulse := now)], now,
                p.events
                  + [RiskEvent(pair.first, pair.second, Midpoint(current[pair.first], current[pair.second]),
                               pair.riskLevel)])
  }

  function PulsedAll(p: Pulses, pairs: seq<PairRisk>, current: map<int, Point>, now: int): Pulses {
    if pairs == [] then p
    else Pulsed(PulsedAll(p, pairs[..|pairs| - 1], current, now), pairs[|pairs| - 1], current, now)
  }

  function Remembered(p: Pulses, now: int): Pulses {
    p.(states := map key | key in p.states
       && now - p.states[key].lastSeen <= PAIR_PULSE_STATE_RETENTION :: p.states[key])
  }

  // ---------- cleanup ----------

  function DisplayOf(d: Display, current: set<int>): Display {
    var gone := d.transitions.Keys - current;
    Display(d.transitions - gone, d.opacities - gone, d.opacityTimes - gone)
  }

  predicate Stale(f: Filters, id: int, now: int) {
    id in f.times && now - f.times[id] > POSITION_FILTER_RESET_GAP
  }

  function FiltersAt(f: Filters, candidates: set<int>, now: int): Filters {
    var gone := set id | id in candidates && Stale(f, id, now);
    Filters(f.histories - gone, f.positions - gone, f.times - gone)
  }

  datatype Snapshot = Snapshot(observed: seq<Shown>, missing: map<int, Shown>, pairs: seq<PairRisk>)

  const NO_SNAPSHOT := Snapshot([], map[], [])

  predicate Drawable(s: Tracker) { s.history != [] && Ready(s.bounds) }

  function Latest(s: Tracker): seq<RiskObject>
    requires s.history != []
  {
    s.history[|s.history| - 1].objects
  }

  function Undrawn(s: Tracker, d: Drawing): set<int> { s.life.retained.Keys - d.current.Keys }

  function PictureOf(c: Config, s: Tracker, now: int): Snapshot {
    if !Drawable(s) then NO_SNAPSHOT
    else
      var d := DrawnAll(c, s, Latest(s), |Latest(s)|, now);
      Snapshot(d.objects, Ghosts(c, s.life, s.filters, d.display, Undrawn(s, d), now), d.pairs)
  }

  function Positions(shown: map<int, Shown>): map<int, Point> {
    map id | id in shown :: shown[id].position
  }

  /** The state once the observed and the missing objects have been drawn: pulses and cleanup. */
  function Finished(c: Config, s: Tracker, d: Drawing, ghosts: map<int, Shown>, now: int): Tracker {
    var current := d.current + Positions(ghosts);
    s.(life := LifeWithout(s.life, Undrawn(s, d) - ghosts.Keys, ghosts.Keys),
       pulses := Remembered(PulsedAll(s.pulses, d.pairs, current, now), now),
       display := DisplayOf(Faded(c, s.life, d.display, ghosts.Keys, now), current.Keys),
       filters := FiltersAt(s.filters, s.filters.times.Keys, now),
       previous := current)
  }

  function RenderedState(c: Config, s: Tracker, now: int): Tracker {
    if !Drawable(s) then s
    else
      var d := DrawnAll(c, s, Latest(s), |Latest(s)|, now);
      Finished(c, s, d, Ghosts(c, s.life, s.filters, d.display, Undrawn(s, d), now), now)
  }

  function Quiet(s: Tracker): Tracker { s.(pulses := s.pulses.(events := [])) }

  /** What `buildSnapshot` returns, and the state it leaves. */
  function Picture(c: Config, s: Tracker, now: int): Snapshot { PictureOf(c, Quiet(s), now) }
  function Built(c: Config, s: Tracker, now: int): Tracker { RenderedState(c, Quiet(s), now) }
}
