/** Time-indexed history of blur regions (client BlurProcessor): which frames are kept, which one a
    video frame is matched with, and how its boxes are interpolated or predicted. */
module BlurHistory {
  import opened Domain

  datatype TargetType = Face | LicensePlate {
    function Rank(): nat { if Face? then 0 else 1 }
  }

  datatype Region = Region(id: int, target: TargetType, box: NormBox)
  datatype BlurFrame = BlurFrame(channelIndex: int, ts: int, regions: seq<Region>)

  /** The ranges are those the configuration loader enforces. */
  datatype Config = Config(
    historyMsec: int, matchToleranceMsec: int, holdLastMetadataMsec: int, maximumExtrapolationMsec: int,
    maximumHistorySize: int, sourceRestartGapMsec: int)
  {
    predicate Valid() {
      && historyMsec >= 100 && matchToleranceMsec >= 0 && holdLastMetadataMsec >= 0 && maximumExtrapolationMsec >= 0
      && maximumHistorySize >= 1 && sourceRestartGapMsec >= 100
    }
  }

  // ---------- regions sorted by key ----------

  predicate KeyLess(a: Region, b: Region) {
    if a.id != b.id then a.id < b.id else a.target.Rank() < b.target.Rank()
  }

  predicate SameKey(a: Region, b: Region) { a.id == b.id && a.target == b.target }

  ghost predicate KeySorted(regions: seq<Region>) {
    forall i, j :: 0 <= i < j < |regions| ==> !KeyLess(regions[j], regions[i])
  }

  /** Before the first region with a key that is not smaller, so equal keys keep their order. */
  function InsertStable(r: Region, sorted: seq<Region>): (s: seq<Region>)
    ensures multiset(s) == multiset{r} + multiset(sorted)
  {
    if sorted == [] || !KeyLess(sorted[0], r) then [r] + sorted
    else
      assert sorted == [sorted[0]] + sorted[1..];
      [sorted[0]] + InsertStable(r, sorted[1..])
  }

  /** `std::stable_sort`. */
  function StableSort(regions: seq<Region>): (s: seq<Region>)
    ensures multiset(s) == multiset(regions)
  {
    if regions == [] then []
    else
      assert regions == [regions[0]] + regions[1..];
      InsertStable(regions[0], StableSort(regions[1..]))
  }

  lemma {:induction false} InsertKeepsSorted(r: Region, sorted: seq<Region>)
    requires KeySorted(sorted)
    ensures KeySorted(InsertStable(r, sorted))
  {
    if sorted != [] && KeyLess(sorted[0], r) {
      InsertKeepsSorted(r, sorted[1..]);
      var rest := InsertStable(r, sorted[1..]);
      forall j | 0 <= j < |rest| ensures !KeyLess(rest[j], sorted[0]) {
        assert rest[j] in multiset(rest);
        assert rest[j] in multiset{r} + multiset(sorted[1..]);
      }
    }
  }

  lemma {:induction false} StableSortSorts(regions: seq<Region>)
    ensures KeySorted(StableSort(regions))
  {
    if regions != [] {
      StableSortSorts(regions[1..]);
      InsertKeepsSorted(regions[0], StableSort(regions[1..]));
    }
  }

  /** The first region with the key, in list order. */
  function FirstWithKey(regions: seq<Region>, key: Region): Option<Region> {
    if regions == [] then None
    else if SameKey(regions[0], key) then Some(regions[0])
    else FirstWithKey(regions[1..], key)
  }

  lemma {:induction false} InsertKeepsFirst(r: Region, sorted: seq<Region>, key: Region)
    ensures FirstWithKey(InsertStable(r, sorted), key) == FirstWithKey([r] + sorted, key)
  {
    assert ([r] + sorted)[1..] == sorted;
    if sorted != [] && KeyLess(sorted[0], r) {
      InsertKeepsFirst(r, sorted[1..], key);
      assert ([r] + sorted[1..])[1..] == sorted[1..];
      assert InsertStable(r, sorted)[1..] == InsertStable(r, sorted[1..]);
    }
  }

  /** Sorting does not change which of several regions with one key is found first. */
  lemma {:induction false} StableSortKeepsFirst(regions: seq<Region>, key: Region)
    ensures FirstWithKey(StableSort(regions), key) == FirstWithKey(regions, key)
  {
    if regions != [] {
      StableSortKeepsFirst(regions[1..], key);
      InsertKeepsFirst(regions[0], StableSort(regions[1..]), key);
      assert ([regions[0]] + StableSort(regions[1..]))[1..] == StableSort(regions[1..]);
    }
  }

  /** Binary search for the key; equal to the linear search in a sorted list. */
  method FindSortedRegion(regions: seq<Region>, key: Region) returns (found: Option<Region>)
    requires KeySorted(regions)
    ensures found == FirstWithKey(regions, key)
  {
    var lo, hi := 0, |regions|;
    while lo < hi
      invariant 0 <= lo <= hi <= |regions|
      invariant forall i :: 0 <= i < lo ==> KeyLess(regions[i], key)
      invariant forall i :: hi <= i < |regions| ==> !KeyLess(regions[i], key)
    {
      var mid := (lo + hi) / 2;
      if KeyLess(regions[mid], key) {
        forall i | 0 <= i <= mid ensures KeyLess(regions[i], key) {
          assert i < mid ==> !KeyLess(regions[mid], regions[i]);
        }
        lo := mid + 1;
      } else {
        forall i | mid <= i < |regions| ensures !KeyLess(regions[i], key) {
          assert mid < i ==> !KeyLess(regions[i], regions[mid]);
        }
        hi := mid;
      }
    }
    SearchIsLinear(regions, key, lo);
    return if lo == |regions| || regions[lo].id != key.id || regions[lo].target != key.target then None
      else Some(regions[lo]);
  }

  lemma {:induction false} SearchIsLinear(regions: seq<Region>, key: Region, at: nat)
    requires KeySorted(regions) && at <= |regions|
    requires forall i :: 0 <= i < at ==> KeyLess(regions[i], key)
    requires at < |regions| ==> !KeyLess(regions[at], key)
    ensures FirstWithKey(regions, key) == if at < |regions| && SameKey(regions[at], key) then Some(regions[at])
      else None
    decreases |regions|
  {
    if regions != [] {
      if at == 0 {
        if !SameKey(regions[0], key) { LargerHasNoKey(regions, key); }
      } else {
        assert KeyLess(regions[0], key);
        SearchIsLinear(regions[1..], key, at - 1);
      }
    }
  }

  lemma {:induction false} LargerHasNoKey(regions: seq<Region>, key: Region)
    requires KeySorted(regions) && regions != [] && KeyLess(key, regions[0])
    ensures FirstWithKey(regions, key) == None
  {
    if |regions| > 1 {
      assert !KeyLess(regions[1], regions[0]);
      LargerHasNoKey(regions[1..], key);
    }
  }

  // ---------- the history ----------

  ghost predicate Increasing(history: seq<BlurFrame>) {
    forall i, j :: 0 <= i < j < |history| ==> history[i].ts < history[j].ts
  }

  /** First frame not earlier than `t`. */
  ghost predicate IsLowerBound(history: seq<BlurFrame>, t: int, at: nat) {
    && at <= |history|
    && (forall i :: 0 <= i < at ==> history[i].ts < t)
    && (forall i :: at <= i < |history| ==> history[i].ts >= t)
  }

  function LowerBoundOf(history: seq<BlurFrame>, t: int): (at: nat)
    ensures at <= |history|
  {
    if history == [] || history[0].ts >= t then 0 else 1 + LowerBoundOf(history[1..], t)
  }

  lemma {:induction false} LowerBoundIsUnique(history: seq<BlurFrame>, t: int, at: nat)
    requires IsLowerBound(history, t, at)
    ensures LowerBoundOf(history, t) == at
  {
    if history != [] && at > 0 {
      LowerBoundIsUnique(history[1..], t, at - 1);
    }
  }

  lemma {:induction false} LowerBoundHolds(history: seq<BlurFrame>, t: int)
    requires Increasing(history)
    ensures IsLowerBound(history, t, LowerBoundOf(history, t))
  {
    if history != [] && history[0].ts < t {
      LowerBoundHolds(history[1..], t);
    }
  }

  /** `std::lower_bound` by source timestamp. */
  method LowerBound(history: seq<BlurFrame>, t: int) returns (at: nat)
    requires Increasing(history)
    ensures IsLowerBound(history, t, at) && at == LowerBoundOf(history, t)
  {
    var lo, hi := 0, |history|;
    while lo < hi
      invariant 0 <= lo <= hi <= |history|
      invariant forall i :: 0 <= i < lo ==> history[i].ts < t
      invariant forall i :: hi <= i < |history| ==> history[i].ts >= t
    {
      var mid := (lo + hi) / 2;
      if history[mid].ts < t {
        lo := mid + 1;
      } else {
        hi := mid;
      }
    }
    LowerBoundIsUnique(history, t, lo);
    return lo;
  }

  /** Put where its time belongs, replacing a frame of the same time. */
  function Placed(history: seq<BlurFrame>, frame: BlurFrame): seq<BlurFrame> {
    var at := LowerBoundOf(history, frame.ts);
    if at < |history| && history[at].ts == frame.ts then history[at := frame]
    else history[..at] + [frame] + history[at..]
  }

  function Pruned(history: seq<BlurFrame>, newest: int, c: Config): seq<BlurFrame> {
    if history == [] || (history[0].ts >= newest - c.historyMsec && |history| <= c.maximumHistorySize) then history
    else Pruned(history[1..], newest, c)
  }

  datatype State = State(history: seq<BlurFrame>, latest: int, lastArrival: int, channel: int)

  function Empty(): State { State([], 0, 0, -1) }

  /** Nothing was accepted for the restart gap: start over. */
  function Resynchronized(s: State, arrival: int, c: Config): State {
    if s.lastArrival > 0 && arrival - s.lastArrival >= c.sourceRestartGapMsec then s.(history := [], latest := 0) else s
  }

  predicate TooOld(s: State, frame: BlurFrame, c: Config) {
    s.latest > 0 && frame.ts < s.latest - c.historyMsec
  }

  predicate Valid(frame: BlurFrame) { frame.channelIndex >= 0 && frame.ts > 0 }

  function StoredAs(s: State, placed: seq<BlurFrame>, ts: int, channel: int, arrival: int, c: Config): State
    requires placed != []
  {
    State(Pruned(placed, placed[|placed| - 1].ts, c), if s.latest < ts then ts else s.latest, arrival, channel)
  }

  function Stored(s: State, frame: BlurFrame, arrival: int, c: Config): State {
    StoredAs(s, Placed(s.history, frame.(regions := StableSort(frame.regions))), frame.ts, frame.channelIndex, arrival,
             c)
  }

  /** `submitFrame` with the monotonic clock's reading, at least 1. */
  function Submitted(s: State, frame: BlurFrame, elapsed: int, c: Config): State {
    var arrival := if elapsed < 1 then 1 else elapsed;
    if !Valid(frame) then s
    else
      var r := Resynchronized(s, arrival, c);
      if TooOld(r, frame, c) then r else Stored(r, frame, arrival, c)
  }

  class BlurProcessor {
    const c: Config
    var history: seq<BlurFrame>
    var latest: int
    var lastArrival: int
    var channel: int
    var faceEnabled: bool
    var licensePlateEnabled: bool

    ghost function View(): State reads this { State(history, latest, lastArrival, channel) }

    constructor (c: Config)
      ensures this.c == c && View() == Empty() && faceEnabled && licensePlateEnabled
    {
      this.c := c;
      history, latest, lastArrival, channel := [], 0, 0, -1;
      faceEnabled, licensePlateEnabled := true, true;
    }

    method SubmitFrame(frame: BlurFrame, elapsed: int)
      requires c.Valid() && Increasing(history)
      modifies `history, `latest, `lastArrival, `channel
      ensures View() == Submitted(old(View()), frame, elapsed, c)
    {
      if frame.channelIndex < 0 || frame.ts <= 0 {
        return;
      }
      var sorted := frame.(regions := StableSort(frame.regions));
      var arrival := if elapsed < 1 then 1 else elapsed;
      if lastArrival > 0 && arrival - lastArrival >= c.sourceRestartGapMsec {
        history, latest := [], 0;
      }
      if latest > 0 && sorted.ts < latest - c.historyMsec {
        return;
      }
      Store(sorted, arrival);
    }

    method Store(frame: BlurFrame, arrival: int)
      requires Increasing(history)
      modifies `history, `latest, `lastArrival, `channel
      ensures View() == StoredAs(old(View()), Placed(old(history), frame), frame.ts, frame.channelIndex, arrival, c)
    {
      lastArrival := arrival;
      latest := if latest < frame.ts then frame.ts else latest;
      channel := frame.channelIndex;
      Place(frame);
      Prune();
    }

    method Place(frame: BlurFrame)
      requires Increasing(history)
      modifies `history
      ensures history == Placed(old(history), frame)
    {
      var n := |history|;
      if n == 0 || frame.ts > history[n - 1].ts {
        LowerBoundIsUnique(history, frame.ts, n);
        assert history == history[..n] && history[n..] == [];
        history := history + [frame];
      } else if frame.ts == history[n - 1].ts {
        LowerBoundIsUnique(history, frame.ts, n - 1);
        history := history[n - 1 := frame];
      } else {
        var at := LowerBound(history, frame.ts);
        if at != n && history[at].ts == frame.ts {
          history := history[at := frame];
        } else {
          history := history[..at] + [frame] + history[at..];
        }
      }
    }

    method Prune()
      requires history != []
      modifies `history
      ensures history == Pruned(old(history), old(history)[|old(history)| - 1].ts, c)
    {
      var newest := history[|history| - 1].ts;
      var removeCount := 0;
      while removeCount < |history|
            && (history[removeCount].ts < newest - c.historyMsec || |history| - removeCount > c.maximumHistorySize)
        invariant 0 <= removeCount <= |history| && history == old(history)
        invariant Pruned(history[removeCount..], newest, c) == Pruned(history, newest, c)
      {
        assert history[removeCount..][1..] == history[removeCount + 1..];
        removeCount := removeCount + 1;
      }
      history := history[removeCount..];
    }

    predicate IsEnabled(region: Region) reads `faceEnabled, `licensePlateEnabled {
      if region.target == Face then faceEnabled else licensePlateEnabled
    }

    /** The boxes to blur in the video frame of time `t`. */
    method RegionsFor(t: int) returns (boxes: seq<NormBox>)
      requires c.Valid() && HistorySound(View(), c)
      ensures boxes == Boxes(history, t, c, faceEnabled, licensePlateEnabled)
    {
      if history == [] {
        return [];
      }
      var after := LowerBound(history, t);
      var selected := Selected(history, t, c);
      if selected.None? {
        return [];
      }
      var regions := history[selected.value].regions;
      boxes := [];
      for i := 0 to |regions|
        invariant boxes == BoxesOf(history, t, c, faceEnabled, licensePlateEnabled, regions[..i])
      {
        assert regions[..i + 1][..i] == regions[..i];
        if !IsEnabled(regions[i]) {
          continue;
        }
        var box := BoxAt(regions[i], t, after);
        boxes := boxes + [box];
      }
      assert regions[..|regions|] == regions;
    }

    method BoxAt(region: Region, t: int, after: nat) returns (box: NormBox)
      requires c.Valid() && HistorySound(View(), c) && history != [] && after == LowerBoundOf(history, t)
      ensures box == BoxFor(history, t, c, region)
    {
      box := region.box;
      if CanInterpolate(history, t, c) {
        var previous := FindSortedRegion(history[after - 1].regions, region);
        var next := FindSortedRegion(history[after].regions, region);
        if previous.Some? && next.Some? {
          box := Interpolated(previous.value.box, next.value.box,
                              Ratio(t - history[after - 1].ts, history[after].ts - history[after - 1].ts));
        }
      } else if CanExtrapolate(history, t, c) {
        var oldest := LowerBound(history, history[after - 1].ts - c.maximumExtrapolationMsec);
        var earlier := FindSortedRegion(history[oldest].regions, region);
        if earlier.Some? {
          box := Translated(earlier.value.box, box,
                            AheadRatio(t - history[after - 1].ts, c.maximumExtrapolationMsec,
                                       history[after - 1].ts - history[oldest].ts));
        }
      }
    }
  }

  // ---------- the history over every run ----------

  ghost predicate FramesSound(history: seq<BlurFrame>) {
    forall i :: 0 <= i < |history| ==> KeySorted(history[i].regions) && history[i].ts > 0
  }

  ghost predicate HistorySound(s: State, c: Config) {
    && Increasing(s.history)
    && |s.history| <= c.maximumHistorySize
    && FramesSound(s.history)
    && (s.history == [] ==> s.latest == 0)
    && (s.history != [] ==> s.latest == s.history[|s.history| - 1].ts
                            && forall i :: 0 <= i < |s.history| ==> s.history[i].ts >= s.latest - c.historyMsec)
  }

  lemma {:induction false} PrunedIsSuffix(history: seq<BlurFrame>, newest: int, c: Config) returns (k: nat)
    requires c.Valid() && Increasing(history) && history != [] && newest == history[|history| - 1].ts
    ensures k < |history| && Pruned(history, newest, c) == history[k..]
    ensures |Pruned(history, newest, c)| <= c.maximumHistorySize
    ensures forall i :: 0 <= i < |Pruned(history, newest, c)| ==>
        Pruned(history, newest, c)[i].ts >= newest - c.historyMsec
  {
    if history[0].ts >= newest - c.historyMsec && |history| <= c.maximumHistorySize {
      k := 0;
    } else if |history| == 1 {
      assert false;
    } else {
      var j := PrunedIsSuffix(history[1..], newest, c);
      k := j + 1;
    }
  }

  lemma PlacedSound(history: seq<BlurFrame>, frame: BlurFrame)
    requires Increasing(history)
    ensures Increasing(Placed(history, frame)) && Placed(history, frame) != []
    ensures forall f :: f in Placed(history, frame) ==> f in history || f == frame
    ensures Placed(history, frame)[|Placed(history, frame)| - 1].ts
         == if history == [] || history[|history| - 1].ts < frame.ts then frame.ts else history[|history| - 1].ts
  {
    LowerBoundHolds(history, frame.ts);
    var at := LowerBoundOf(history, frame.ts);
    InsertedInOrder(history, frame, at);
    if at < |history| && history[at].ts == frame.ts { ReplacedInOrder(history, frame, at); }
  }

  lemma InsertedInOrder(history: seq<BlurFrame>, frame: BlurFrame, at: nat)
    requires Increasing(history) && at <= |history|
    requires (at > 0 ==> history[at - 1].ts < frame.ts) && (at < |history| ==> frame.ts <= history[at].ts)
    ensures var r := history[..at] + [frame] + history[at..];
            && ((at < |history| ==> frame.ts < history[at].ts) ==> Increasing(r))
            && (forall f :: f in r ==> f in history || f == frame)
            && r[|r| - 1] == if at < |history| then history[|history| - 1] else frame
  {
    var r := history[..at] + [frame] + history[at..];
    if at < |history| ==> frame.ts < history[at].ts { OrderWith(history, frame, at, r); }
  }

  lemma OrderWith(history: seq<BlurFrame>, frame: BlurFrame, at: nat, r: seq<BlurFrame>)
    requires Increasing(history) && at <= |history| && r == history[..at] + [frame] + history[at..]
    requires (at > 0 ==> history[at - 1].ts < frame.ts) && (at < |history| ==> frame.ts < history[at].ts)
    ensures Increasing(r)
  {
    forall i, j | 0 <= i < j < |r| ensures r[i].ts < r[j].ts {
      if j == at {
        assert history[i].ts <= history[at - 1].ts;
        assert r[i] == history[i] && r[j] == frame;
      } else if i == at {
        assert history[at].ts <= history[j - 1].ts;
        assert r[i] == frame && r[j] == history[j - 1];
      } else {
        var p, q := if i < at then i else i - 1, if j < at then j else j - 1;
        assert r[i] == history[p] && r[j] == history[q];
      }
    }
  }

  lemma ReplacedInOrder(history: seq<BlurFrame>, frame: BlurFrame, at: nat)
    requires Increasing(history) && at < |history| && history[at].ts == frame.ts
    ensures var r := history[at := frame];
            && Increasing(r) && (forall f :: f in r ==> f in history || f == frame)
            && r[|r| - 1].ts == history[|history| - 1].ts
  {}

  /** One call: the history stays strictly increasing in time, bounded in number and age, with
      regions sorted by key and the newest frame last. */
  lemma SubmitKeepsSound(s: State, frame: BlurFrame, elapsed: int, c: Config)
    requires c.Valid() && HistorySound(s, c)
    ensures HistorySound(Submitted(s, frame, elapsed, c), c)
  {
    var arrival := if elapsed < 1 then 1 else elapsed;
    var r := Resynchronized(s, arrival, c);
    if Valid(frame) && !TooOld(r, frame, c) {
      StoreKeepsSound(r, frame, arrival, c);
    }
  }

  lemma PlacedFramesSound(history: seq<BlurFrame>, frame: BlurFrame)
    requires Increasing(history) && FramesSound(history) && KeySorted(frame.regions) && frame.ts > 0
    ensures FramesSound(Placed(history, frame))
  {}

  lemma PrunedSound(history: seq<BlurFrame>, newest: int, c: Config)
    requires c.Valid() && Increasing(history) && FramesSound(history) && history != []
    requires newest == history[|history| - 1].ts
    ensures var r := Pruned(history, newest, c);
            && Increasing(r) && FramesSound(r) && 0 < |r| <= c.maximumHistorySize && r[|r| - 1].ts == newest
            && forall i :: 0 <= i < |r| ==> r[i].ts >= newest - c.historyMsec
  {
    var k := PrunedIsSuffix(history, newest, c);
    assert forall i :: 0 <= i < |history| - k ==> history[k..][i] == history[k + i];
  }

  lemma StoredAsSound(s: State, placed: seq<BlurFrame>, ts: int, channel: int, arrival: int, c: Config)
    requires c.Valid() && Increasing(placed) && FramesSound(placed) && placed != []
    requires placed[|placed| - 1].ts == if s.latest < ts then ts else s.latest
    ensures HistorySound(StoredAs(s, placed, ts, channel, arrival, c), c)
  {
    PrunedSound(placed, placed[|placed| - 1].ts, c);
  }

  lemma StoreKeepsSound(s: State, frame: BlurFrame, arrival: int, c: Config)
    requires c.Valid() && HistorySound(s, c) && Valid(frame)
    ensures HistorySound(Stored(s, frame, arrival, c), c)
  {
    var sorted := frame.(regions := StableSort(frame.regions));
    StableSortSorts(frame.regions);
    PlacedSound(s.history, sorted);
    PlacedFramesSound(s.history, sorted);
    StoredAsSound(s, Placed(s.history, sorted), frame.ts, frame.channelIndex, arrival, c);
  }

  datatype Call = Call(frame: BlurFrame, elapsed: int)

  ghost function Run(s: State, calls: seq<Call>, c: Config): State {
    if calls == [] then s
    else Submitted(Run(s, calls[..|calls| - 1], c), calls[|calls| - 1].frame, calls[|calls| - 1].elapsed, c)
  }

  lemma {:induction false} AlwaysSound(calls: seq<Call>, c: Config)
    requires c.Valid()
    ensures HistorySound(Run(Empty(), calls, c), c)
  {
    if calls != [] {
      var n := |calls| - 1;
      AlwaysSound(calls[..n], c);
      SubmitKeepsSound(Run(Empty(), calls[..n], c), calls[n].frame, calls[n].elapsed, c);
    }
  }

  /** A valid frame is taken exactly if the restart gap has passed since the last one taken, or it
      is not older than the history; a frame not taken changes nothing, so it cannot put off the
      restart. After the gap even a frame older than everything starts the history anew: no
      timestamp, however far in the future, blocks the stream for good. */
  lemma TakenExactly(s: State, frame: BlurFrame, elapsed: int, c: Config)
    requires c.Valid() && HistorySound(s, c) && Valid(frame) && elapsed >= 1
    ensures var gap := s.lastArrival > 0 && elapsed - s.lastArrival >= c.sourceRestartGapMsec;
            var after := Submitted(s, frame, elapsed, c);
            && (gap ==> after.history == [frame.(regions := StableSort(frame.regions))] && after.latest == frame.ts)
            && (!gap && (s.history == [] || frame.ts >= s.latest - c.historyMsec) ==>
                after == Stored(s, frame, elapsed, c))
            && (!gap && s.history != [] && frame.ts < s.latest - c.historyMsec ==> after == s)
  {
    var sorted := frame.(regions := StableSort(frame.regions));
    assert Placed([], sorted) == [sorted];
    assert s.history != [] ==> s.history[|s.history| - 1].ts > 0;
  }

  lemma PlacedExactly(history: seq<BlurFrame>, frame: BlurFrame, f: BlurFrame)
    requires Increasing(history)
    ensures f in Placed(history, frame) <==> f == frame || (f in history && f.ts != frame.ts)
  {
    LowerBoundHolds(history, frame.ts);
    var at, placed := LowerBoundOf(history, frame.ts), Placed(history, frame);
    if at < |history| && history[at].ts == frame.ts {
      assert placed == history[..at] + [frame] + history[at + 1..];
      assert history == history[..at] + [history[at]] + history[at + 1..];
    } else {
      assert history == history[..at] + history[at..];
    }
  }

  /** The frames that go are the oldest: each of them is too old, or there are too many from it on. */
  lemma {:induction false} PrunedExactly(history: seq<BlurFrame>, newest: int, c: Config) returns (k: nat)
    ensures k <= |history| && Pruned(history, newest, c) == history[k..]
    ensures forall i :: 0 <= i < k ==> history[i].ts < newest - c.historyMsec || |history| - i > c.maximumHistorySize
    ensures k < |history| ==> history[k].ts >= newest - c.historyMsec && |history| - k <= c.maximumHistorySize
  {
    if history == [] || (history[0].ts >= newest - c.historyMsec && |history| <= c.maximumHistorySize) {
      k := 0;
    } else {
      k := PrunedExactly(history[1..], newest, c);
      k := k + 1;
    }
  }

  /** An accepted frame joins the history in place of one of the same time; then the oldest go, as far
      as they are too old or too many. */
  lemma StoredExactly(s: State, frame: BlurFrame, arrival: int, c: Config) returns (all: seq<BlurFrame>, k: nat)
    requires c.Valid() && HistorySound(s, c) && Valid(frame)
    ensures var sorted, after := frame.(regions := StableSort(frame.regions)), Stored(s, frame, arrival, c);
            var newest := if s.latest < frame.ts then frame.ts else s.latest;
            && Increasing(all) && (forall f :: f in all <==> f == sorted || (f in s.history && f.ts != frame.ts))
            && k < |all| && after.history == all[k..] && after.latest == newest && after.lastArrival == arrival
            && (forall i :: 0 <= i < k ==> all[i].ts < newest - c.historyMsec || |all| - i > c.maximumHistorySize)
            && all[k].ts >= newest - c.historyMsec && |all| - k <= c.maximumHistorySize
  {
    var sorted := frame.(regions := StableSort(frame.regions));
    all := Placed(s.history, sorted);
    PlacedSound(s.history, sorted);
    forall f ensures f in all <==> f == sorted || (f in s.history && f.ts != frame.ts) {
      PlacedExactly(s.history, sorted, f);
    }
    k := PrunedExactly(all, all[|all| - 1].ts, c);
    var j := PrunedIsSuffix(all, all[|all| - 1].ts, c);
    assert k < |all|;
  }

  // ---------- selection ----------

  function Gap(history: seq<BlurFrame>, i: nat, t: int): int
    requires i < |history|
  {
    if history[i].ts < t then t - history[i].ts else history[i].ts - t
  }

  /** What the code compares: the neighbours of `t`. */
  function NearestNeighbour(history: seq<BlurFrame>, t: int): (i: nat)
    requires history != []
    ensures i < |history|
  {
    var after := LowerBoundOf(history, t);
    if after == 0 then 0
    else if after == |history| || t - history[after - 1].ts <= history[after].ts - t then after - 1
    else after
  }

  function Selected(history: seq<BlurFrame>, t: int, c: Config): (i: Option<nat>)
    requires history != []
    ensures i.Some? ==> i.value < |history|
  {
    var after, nearest := LowerBoundOf(history, t), NearestNeighbour(history, t);
    if Gap(history, nearest, t) <= c.matchToleranceMsec then Some(nearest)
    else if after > 0 && 0 <= t - history[after - 1].ts <= c.holdLastMetadataMsec then Some(after - 1)
    else None
  }

  /** Independent of any order: the earliest of the frames nearest to `t`. */
  ghost predicate IsNearest(history: seq<BlurFrame>, t: int, i: nat) {
    && i < |history|
    && (forall j :: 0 <= j < |history| ==> Gap(history, i, t) <= Gap(history, j, t))
    && (forall j :: 0 <= j < i ==> Gap(history, i, t) < Gap(history, j, t))
  }

  ghost predicate IsLastBefore(history: seq<BlurFrame>, t: int, i: nat) {
    i < |history| && history[i].ts < t && forall j :: i < j < |history| ==> history[j].ts >= t
  }

  /** The frame chosen is what a linear scan would choose: the nearest if it is near enough, the
      earlier of two equally near; otherwise the last one before, if it may still be held;
      otherwise none. */
  lemma SelectsNearestOrHolds(history: seq<BlurFrame>, t: int, c: Config, nearest: nat)
    requires history != [] && Increasing(history) && IsNearest(history, t, nearest)
    ensures NearestNeighbour(history, t) == nearest
    ensures Gap(history, nearest, t) <= c.matchToleranceMsec ==> Selected(history, t, c) == Some(nearest)
    ensures Gap(history, nearest, t) > c.matchToleranceMsec ==>
              match Selected(history, t, c)
              case Some(i) => IsLastBefore(history, t, i) && t - history[i].ts <= c.holdLastMetadataMsec
              case None => forall j :: 0 <= j < |history| && history[j].ts < t ==>
                t - history[j].ts > c.holdLastMetadataMsec
  {
    LowerBoundHolds(history, t);
    var after := LowerBoundOf(history, t);
    var chosen := NearestNeighbour(history, t);
    assert Gap(history, nearest, t) <= Gap(history, chosen, t);
  }

  // ---------- boxes ----------

  predicate CanInterpolate(history: seq<BlurFrame>, t: int, c: Config)
    requires history != []
  {
    var after := LowerBoundOf(history, t);
    && 0 < after < |history|
    && Gap(history, NearestNeighbour(history, t), t) <= c.matchToleranceMsec
    && history[after].ts > history[after - 1].ts
    && Gap(history, after - 1, t) <= c.matchToleranceMsec && Gap(history, after, t) <= c.matchToleranceMsec
  }

  /** Only at the end of the history, with an earlier frame recent enough to measure a velocity. */
  predicate CanExtrapolate(history: seq<BlurFrame>, t: int, c: Config)
    requires history != []
  {
    var n := |history|;
    LowerBoundOf(history, t) == n && Selected(history, t, c) == Some(n - 1) && c.maximumExtrapolationMsec > 0 && n >= 2
    && var oldest := LowerBoundOf(history, history[n - 1].ts - c.maximumExtrapolationMsec);
       oldest < n && history[n - 1].ts > history[oldest].ts && t > history[n - 1].ts
  }

  function Ratio(part: int, whole: int): (r: real)
    requires whole > 0
  {
    var q := part as real / whole as real;
    if q < 0.0 then 0.0 else if q > 1.0 then 1.0 else q
  }

  function AheadRatio(ahead: int, limit: int, baseline: int): real
    requires baseline > 0
  {
    (if ahead < limit then ahead else limit) as real / baseline as real
  }

  function Interpolated(a: NormBox, b: NormBox, ratio: real): NormBox {
    NormBox(a.l + (b.l - a.l) * ratio, a.t + (b.t - a.t) * ratio, a.r + (b.r - a.r) * ratio, a.b + (b.b - a.b) * ratio)
  }

  function CenterX(box: NormBox): real { (box.l + box.r) * 0.5 }
  function CenterY(box: NormBox): real { (box.t + box.b) * 0.5 }

  /** `latest` moved on by `ratio` times its displacement from `earlier`. */
  function Translated(earlier: NormBox, latest: NormBox, ratio: real): NormBox {
    var dx, dy := (CenterX(latest) - CenterX(earlier)) * ratio, (CenterY(latest) - CenterY(earlier)) * ratio;
    NormBox(latest.l + dx, latest.t + dy, latest.r + dx, latest.b + dy)
  }

  function BoxFor(history: seq<BlurFrame>, t: int, c: Config, region: Region): NormBox
    requires history != []
  {
    var after := LowerBoundOf(history, t);
    if CanInterpolate(history, t, c) then
      match (FirstWithKey(history[after - 1].regions, region), FirstWithKey(history[after].regions, region))
      case (Some(p), Some(q)) => Interpolated(p.box, q.box,
                                              Ratio(t - history[after - 1].ts,
                                                    history[after].ts - history[after - 1].ts))
      case _ => region.box
    else if CanExtrapolate(history, t, c) then
      var oldest := LowerBoundOf(history, history[after - 1].ts - c.maximumExtrapolationMsec);
      match FirstWithKey(history[oldest].regions, region)
      case Some(e) =>
        Translated(e.box, region.box,
                   AheadRatio(t - history[after - 1].ts, c.maximumExtrapolationMsec,
                              history[after - 1].ts - history[oldest].ts))
      case None => region.box
    else region.box
  }

  predicate Wanted(region: Region, face: bool, plate: bool) { if region.target == Face then face else plate }

  function BoxesOf(history: seq<BlurFrame>, t: int, c: Config, face: bool, plate: bool,
                   regions: seq<Region>): seq<NormBox>
    requires history != []
  {
    if regions == [] then []
    else
      var n := |regions| - 1;
      BoxesOf(history, t, c, face, plate, regions[..n])
      + if Wanted(regions[n], face, plate) then [BoxFor(history, t, c, regions[n])] else []
  }

  function Boxes(history: seq<BlurFrame>, t: int, c: Config, face: bool, plate: bool): seq<NormBox> {
    if history == [] then []
    else match Selected(history, t, c)
      case None => []
      case Some(i) => BoxesOf(history, t, c, face, plate, history[i].regions)
  }

  /** Every wanted region of the selected frame is blurred, and nothing else. */
  lemma {:induction false} EveryWantedRegionIsBlurred(history: seq<BlurFrame>, t: int, c: Config, face: bool,
                                                      plate: bool,
                                                      regions: seq<Region>, box: NormBox)
    requires history != []
    ensures box in BoxesOf(history, t, c, face, plate, regions)
       <==> exists i :: 0 <= i < |regions| && Wanted(regions[i], face, plate)
                        && BoxFor(history, t, c, regions[i]) == box
  {
    if regions != [] {
      var n := |regions| - 1;
      EveryWantedRegionIsBlurred(history, t, c, face, plate, regions[..n], box);
      if i :| 0 <= i < |regions| && Wanted(regions[i], face, plate) && BoxFor(history, t, c, regions[i]) == box {
        assert i < n ==> regions[..n][i] == regions[i];
      }
    }
  }

  lemma EdgeBetween(a: real, b: real, ratio: real)
    requires 0.0 <= ratio <= 1.0
    ensures Min(a, b) <= a + (b - a) * ratio <= Max(a, b)
  {
    var lo, hi := Min(a, b), Max(a, b);
    Nonneg(1.0 - ratio, a - lo);
    Nonneg(ratio, b - lo);
    Nonneg(1.0 - ratio, hi - a);
    Nonneg(ratio, hi - b);
    assert a + (b - a) * ratio - lo == (1.0 - ratio) * (a - lo) + ratio * (b - lo);
    assert hi - (a + (b - a) * ratio) == (1.0 - ratio) * (hi - a) + ratio * (hi - b);
  }

  predicate EdgesBetween(a: NormBox, b: NormBox, m: NormBox) {
    && Min(a.l, b.l) <= m.l <= Max(a.l, b.l) && Min(a.r, b.r) <= m.r <= Max(a.r, b.r)
    && Min(a.t, b.t) <= m.t <= Max(a.t, b.t) && Min(a.b, b.b) <= m.b <= Max(a.b, b.b)
  }

  /** Each edge of an interpolated box lies between the two edges it comes from; so it covers what
      both boxes have in common and stays within what surrounds both. */
  lemma InterpolatedLiesBetween(a: NormBox, b: NormBox, ratio: real)
    requires 0.0 <= ratio <= 1.0
    ensures EdgesBetween(a, b, Interpolated(a, b, ratio))
  {
    EdgeBetween(a.l, b.l, ratio);
    EdgeBetween(a.r, b.r, ratio);
    EdgeBetween(a.t, b.t, ratio);
    EdgeBetween(a.b, b.b, ratio);
  }

  /** The ratio is always in range, and at the time of either frame its own box is used. */
  lemma InterpolationMeetsBothFrames(a: NormBox, b: NormBox, part: int, whole: int)
    requires whole > 0
    ensures 0.0 <= Ratio(part, whole) <= 1.0
    ensures part <= 0 ==> Interpolated(a, b, Ratio(part, whole)) == a
    ensures part >= whole ==> Interpolated(a, b, Ratio(part, whole)) == b
  {
    RatioEnds(part as real, whole as real);
  }

  lemma RatioEnds(part: real, whole: real)
    requires whole > 0.0
    ensures part <= 0.0 ==> part / whole <= 0.0
    ensures part >= whole ==> part / whole >= 1.0
  {}

  /** A predicted box keeps its size and moves with the measured velocity for at most the
      configured time: its displacement times the baseline is the measured one times the time ahead. */
  lemma PredictionKeepsSize(earlier: NormBox, latest: NormBox, ahead: int, limit: int, baseline: int)
    requires baseline > 0 && limit >= 0
    ensures var p := Translated(earlier, latest, AheadRatio(ahead, limit, baseline));
            var time := (if ahead < limit then ahead else limit) as real;
            && p.r - p.l == latest.r - latest.l && p.b - p.t == latest.b - latest.t
            && (CenterX(p) - CenterX(latest)) * baseline as real == (CenterX(latest) - CenterX(earlier)) * time
            && (CenterY(p) - CenterY(latest)) * baseline as real == (CenterY(latest) - CenterY(earlier)) * time
  {
    var time, whole := (if ahead < limit then ahead else limit) as real, baseline as real;
    var ratio := time / whole;
    assert ratio * whole == time;
    Carry(CenterX(latest) - CenterX(earlier), ratio, whole, time);
    Carry(CenterY(latest) - CenterY(earlier), ratio, whole, time);
  }

  lemma Carry(d: real, ratio: real, whole: real, time: real)
    requires ratio * whole == time
    ensures d * ratio * whole == d * time
  {
    assert d * ratio * whole == d * (ratio * whole);
  }

  // ---------- where the returned boxes come from ----------

  /** Between the boxes that the neighbours of `t` report for the region; at the later one's time, its box. */
  predicate FromNeighbours(history: seq<BlurFrame>, t: int, region: Region, box: NormBox) {
    var after := LowerBoundOf(history, t);
    && 0 < after < |history| && history[after - 1].ts < t <= history[after].ts
    && match (FirstWithKey(history[after - 1].regions, region), FirstWithKey(history[after].regions, region))
       case (Some(p), Some(q)) => EdgesBetween(p.box, q.box, box) && (t == history[after].ts ==> box == q.box)
       case _ => false
  }

  /** After the last frame: the reported box, moved but not resized. */
  predicate Predicted(history: seq<BlurFrame>, t: int, region: Region, box: NormBox) {
    && history != [] && t > history[|history| - 1].ts
    && box.r - box.l == region.box.r - region.box.l && box.b - box.t == region.box.b - region.box.t
  }

  lemma BoxForComesFrom(history: seq<BlurFrame>, t: int, c: Config, region: Region)
    requires history != [] && Increasing(history)
    ensures var box := BoxFor(history, t, c, region);
            box == region.box || FromNeighbours(history, t, region, box) || Predicted(history, t, region, box)
  {
    LowerBoundHolds(history, t);
    var after := LowerBoundOf(history, t);
    if CanInterpolate(history, t, c) {
      var part, whole := t - history[after - 1].ts, history[after].ts - history[after - 1].ts;
      match (FirstWithKey(history[after - 1].regions, region), FirstWithKey(history[after].regions, region))
      case (Some(p), Some(q)) =>
        InterpolationMeetsBothFrames(p.box, q.box, part, whole);
        InterpolatedLiesBetween(p.box, q.box, Ratio(part, whole));
      case _ =>
    }
  }

  /** Every box that is returned belongs to a wanted region of the selected frame: it is the box
      reported there, or lies between those of the two neighbouring frames, or is that box moved on. */
  lemma BoxesComeFromRegions(history: seq<BlurFrame>, t: int, c: Config, face: bool, plate: bool, box: NormBox)
    returns (i: nat, region: Region)
    requires Increasing(history) && box in Boxes(history, t, c, face, plate)
    ensures history != [] && Selected(history, t, c) == Some(i) && region in history[i].regions
    ensures Wanted(region, face, plate)
    ensures box == region.box || FromNeighbours(history, t, region, box) || Predicted(history, t, region, box)
  {
    i := Selected(history, t, c).value;
    var regions := history[i].regions;
    EveryWantedRegionIsBlurred(history, t, c, face, plate, regions, box);
    var k :| 0 <= k < |regions| && Wanted(regions[k], face, plate) && BoxFor(history, t, c, regions[k]) == box;
    region := regions[k];
    BoxForComesFrom(history, t, c, region);
  }
}
