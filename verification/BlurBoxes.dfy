/** Which box is returned for each region, said of the timestamps and regions of the history alone. */
module BlurBoxes {
  import opened Domain
  import opened BlurHistory

  /** The frame reports this box for the key; of several the first counts. */
  ghost predicate Reports(frame: BlurFrame, key: Region, box: NormBox) {
    exists k :: 0 <= k < |frame.regions| && FirstAt(frame.regions, key, k) && frame.regions[k].box == box
  }

  ghost predicate FirstAt(regions: seq<Region>, key: Region, k: nat) {
    k < |regions| && SameKey(regions[k], key) && forall j :: 0 <= j < k ==> !SameKey(regions[j], key)
  }

  lemma {:induction false} FirstIsFound(regions: seq<Region>, key: Region, k: nat)
    requires FirstAt(regions, key, k)
    ensures FirstWithKey(regions, key) == Some(regions[k])
  {
    if k > 0 { FirstIsFound(regions[1..], key, k - 1); }
  }

  lemma {:induction false} FoundIsFirst(regions: seq<Region>, key: Region) returns (k: nat)
    requires FirstWithKey(regions, key).Some?
    ensures FirstAt(regions, key, k) && FirstWithKey(regions, key) == Some(regions[k])
  {
    k := 0;
    if !SameKey(regions[0], key) {
      k := FoundIsFirst(regions[1..], key);
      k := k + 1;
    }
  }

  lemma ReportedExactly(frame: BlurFrame, key: Region, box: NormBox)
    ensures Reports(frame, key, box) <==> var r := FirstWithKey(frame.regions, key); r.Some? && r.value.box == box
  {
    if FirstWithKey(frame.regions, key).Some? { var k := FoundIsFirst(frame.regions, key); }
    if Reports(frame, key, box) {
      var k :| 0 <= k < |frame.regions| && FirstAt(frame.regions, key, k) && frame.regions[k].box == box;
      FirstIsFound(frame.regions, key, k);
    }
  }

  // ---------- between two frames ----------

  /** `i` and the next frame are the neighbours of `t`, both near enough, and report `p` and `q`. */
  ghost predicate Surround(history: seq<BlurFrame>, t: int, c: Config, key: Region, i: nat, p: NormBox, q: NormBox) {
    && IsLastBefore(history, t, i) && i + 1 < |history|
    && t - history[i].ts <= c.matchToleranceMsec && history[i + 1].ts - t <= c.matchToleranceMsec
    && Reports(history[i], key, p) && Reports(history[i + 1], key, q)
  }

  /** The value at `t` on the line through `a` at `ta` and `b` at `tb`. */
  function OnLine(a: real, b: real, ta: int, tb: int, t: int): real
    requires ta < tb
  {
    a + (b - a) * ((t - ta) as real / (tb - ta) as real)
  }

  function BoxOnLine(p: NormBox, q: NormBox, ta: int, tb: int, t: int): NormBox
    requires ta < tb
  {
    NormBox(OnLine(p.l, q.l, ta, tb, t), OnLine(p.t, q.t, ta, tb, t), OnLine(p.r, q.r, ta, tb, t),
            OnLine(p.b, q.b, ta, tb, t))
  }

  // ---------- after the last frame ----------

  ghost predicate IsFirstSince(history: seq<BlurFrame>, t: int, e: nat) {
    e < |history| && history[e].ts >= t && forall j :: 0 <= j < e ==> history[j].ts < t
  }

  /** All frames are before `t`; the last may still be used, and an earlier one from the time over which
      velocity is measured reports `box`. */
  ghost predicate Precedes(history: seq<BlurFrame>, t: int, c: Config, key: Region, e: nat, box: NormBox) {
    var n := |history| - 1;
    && n >= 0 && history[n].ts < t
    && (t - history[n].ts <= c.matchToleranceMsec || t - history[n].ts <= c.holdLastMetadataMsec)
    && IsFirstSince(history, history[n].ts - c.maximumExtrapolationMsec, e) && e < n
    && Reports(history[e], key, box)
  }

  /** `box` is `latest` moved, unchanged in size, by the velocity measured from `earlier` over `baseline`
      milliseconds, for `counted` milliseconds. */
  predicate IsMoved(earlier: NormBox, latest: NormBox, baseline: int, counted: int, box: NormBox) {
    && box.r - box.l == latest.r - latest.l && box.b - box.t == latest.b - latest.t
    && (CenterX(box) - CenterX(latest)) * baseline as real == (CenterX(latest) - CenterX(earlier)) * counted as real
    && (CenterY(box) - CenterY(latest)) * baseline as real == (CenterY(latest) - CenterY(earlier)) * counted as real
  }

  /** The time since the last frame, as far as it counts. */
  function Counted(history: seq<BlurFrame>, t: int, c: Config): int
    requires history != []
  {
    var ahead := t - history[|history| - 1].ts;
    if ahead < c.maximumExtrapolationMsec then ahead else c.maximumExtrapolationMsec
  }

  // ---------- the box ----------

  ghost predicate IsSurrounded(history: seq<BlurFrame>, t: int, c: Config, key: Region) {
    exists i: nat, p, q :: Surround(history, t, c, key, i, p, q)
  }

  ghost predicate IsPreceded(history: seq<BlurFrame>, t: int, c: Config, key: Region) {
    exists e: nat, box :: Precedes(history, t, c, key, e, box)
  }

  ghost predicate IsOnLine(history: seq<BlurFrame>, t: int, c: Config, region: Region, box: NormBox) {
    forall i: nat, p, q :: Surround(history, t, c, region, i, p, q) ==>
      history[i].ts < history[i + 1].ts && box == BoxOnLine(p, q, history[i].ts, history[i + 1].ts, t)
  }

  ghost predicate IsMovedOn(history: seq<BlurFrame>, t: int, c: Config, region: Region, box: NormBox) {
    forall e: nat, b :: Precedes(history, t, c, region, e, b) ==>
      IsMoved(b, region.box, history[|history| - 1].ts - history[e].ts, Counted(history, t, c), box)
  }

  /** Between two frames that report the region, on the straight line between their boxes; after the
      last one moved on with the measured velocity for at most the configured time; otherwise, and only
      then, as reported. */
  ghost predicate IsRight(history: seq<BlurFrame>, t: int, c: Config, region: Region, box: NormBox) {
    && IsOnLine(history, t, c, region, box) && IsMovedOn(history, t, c, region, box)
    && (!IsSurrounded(history, t, c, region) && !IsPreceded(history, t, c, region) ==> box == region.box)
  }

  lemma InterpolatedOnLine(p: NormBox, q: NormBox, ta: int, tb: int, t: int)
    requires ta < t <= tb
    ensures Interpolated(p, q, Ratio(t - ta, tb - ta)) == BoxOnLine(p, q, ta, tb, t)
  {
    ShareInRange((t - ta) as real, (tb - ta) as real);
  }

  lemma ShareInRange(part: real, whole: real)
    requires 0.0 < part <= whole
    ensures 0.0 <= part / whole <= 1.0
  {}

  lemma SurroundedBox(history: seq<BlurFrame>, t: int, c: Config, region: Region, i: nat, p: NormBox, q: NormBox)
    requires c.Valid() && Increasing(history) && Surround(history, t, c, region, i, p, q)
    ensures history[i].ts < history[i + 1].ts
    ensures BoxFor(history, t, c, region) == BoxOnLine(p, q, history[i].ts, history[i + 1].ts, t)
  {
    LowerBoundIsUnique(history, t, i + 1);
    ReportedExactly(history[i], region, p);
    ReportedExactly(history[i + 1], region, q);
    InterpolatedOnLine(p, q, history[i].ts, history[i + 1].ts, t);
  }

  lemma PrecededBox(history: seq<BlurFrame>, t: int, c: Config, region: Region, e: nat, b: NormBox)
    requires c.Valid() && Increasing(history) && Precedes(history, t, c, region, e, b)
    ensures var ts := history[|history| - 1].ts;
            BoxFor(history, t, c, region)
            == Translated(b, region.box, AheadRatio(t - ts, c.maximumExtrapolationMsec, ts - history[e].ts))
  {
    LowerBoundIsUnique(history, t, |history|);
    LowerBoundIsUnique(history, history[|history| - 1].ts - c.maximumExtrapolationMsec, e);
    ReportedExactly(history[e], region, b);
  }

  lemma InterpolatedIsSurrounded(history: seq<BlurFrame>, t: int, c: Config, region: Region)
    requires c.Valid() && Increasing(history) && history != [] && CanInterpolate(history, t, c)
    ensures var after := LowerBoundOf(history, t);
            FirstWithKey(history[after - 1].regions, region).Some? && FirstWithKey(history[after].regions, region).Some?
            ==> IsSurrounded(history, t, c, region)
  {
    LowerBoundHolds(history, t);
    var after := LowerBoundOf(history, t);
    var p, q := FirstWithKey(history[after - 1].regions, region), FirstWithKey(history[after].regions, region);
    if p.Some? && q.Some? {
      ReportedExactly(history[after - 1], region, p.value.box);
      ReportedExactly(history[after], region, q.value.box);
      assert Surround(history, t, c, region, after - 1, p.value.box, q.value.box);
    }
  }

  lemma ExtrapolatedIsPreceded(history: seq<BlurFrame>, t: int, c: Config, region: Region)
    requires c.Valid() && Increasing(history) && history != [] && CanExtrapolate(history, t, c)
    ensures var e := LowerBoundOf(history, history[|history| - 1].ts - c.maximumExtrapolationMsec);
            FirstWithKey(history[e].regions, region).Some? ==> IsPreceded(history, t, c, region)
  {
    LowerBoundHolds(history, t);
    var start := history[|history| - 1].ts - c.maximumExtrapolationMsec;
    LowerBoundHolds(history, start);
    var e := LowerBoundOf(history, start);
    var b := FirstWithKey(history[e].regions, region);
    if b.Some? {
      ReportedExactly(history[e], region, b.value.box);
      assert Precedes(history, t, c, region, e, b.value.box);
    }
  }

  lemma OtherBox(history: seq<BlurFrame>, t: int, c: Config, region: Region)
    requires c.Valid() && Increasing(history) && history != []
    requires !IsSurrounded(history, t, c, region) && !IsPreceded(history, t, c, region)
    ensures BoxFor(history, t, c, region) == region.box
  {
    if CanInterpolate(history, t, c) {
      InterpolatedIsSurrounded(history, t, c, region);
    } else if CanExtrapolate(history, t, c) {
      ExtrapolatedIsPreceded(history, t, c, region);
    }
  }

  lemma PrecededMoves(history: seq<BlurFrame>, t: int, c: Config, region: Region, e: nat, b: NormBox)
    requires c.Valid() && Increasing(history) && Precedes(history, t, c, region, e, b)
    ensures IsMoved(b, region.box, history[|history| - 1].ts - history[e].ts, Counted(history, t, c),
                    BoxFor(history, t, c, region))
  {
    PrecededBox(history, t, c, region, e, b);
    TranslatedMoves(b, region.box, t - history[|history| - 1].ts, c.maximumExtrapolationMsec,
                    history[|history| - 1].ts - history[e].ts, BoxFor(history, t, c, region));
  }

  lemma TranslatedMoves(earlier: NormBox, latest: NormBox, ahead: int, limit: int, baseline: int, box: NormBox)
    requires baseline > 0 && limit >= 0 && box == Translated(earlier, latest, AheadRatio(ahead, limit, baseline))
    ensures IsMoved(earlier, latest, baseline, if ahead < limit then ahead else limit, box)
  {
    PredictionKeepsSize(earlier, latest, ahead, limit, baseline);
  }

  lemma BoxIsRight(history: seq<BlurFrame>, t: int, c: Config, region: Region)
    requires c.Valid() && Increasing(history) && history != []
    ensures IsRight(history, t, c, region, BoxFor(history, t, c, region))
  {
    BoxIsOnLine(history, t, c, region);
    BoxIsMovedOn(history, t, c, region);
    if !IsSurrounded(history, t, c, region) && !IsPreceded(history, t, c, region) { OtherBox(history, t, c, region); }
  }

  lemma BoxIsOnLine(history: seq<BlurFrame>, t: int, c: Config, region: Region)
    requires c.Valid() && Increasing(history) && history != []
    ensures IsOnLine(history, t, c, region, BoxFor(history, t, c, region))
  {
    forall i: nat, p, q | Surround(history, t, c, region, i, p, q)
      ensures history[i].ts < history[i + 1].ts
      ensures BoxFor(history, t, c, region) == BoxOnLine(p, q, history[i].ts, history[i + 1].ts, t)
    {
      SurroundedBox(history, t, c, region, i, p, q);
    }
  }

  lemma BoxIsMovedOn(history: seq<BlurFrame>, t: int, c: Config, region: Region)
    requires c.Valid() && Increasing(history) && history != []
    ensures IsMovedOn(history, t, c, region, BoxFor(history, t, c, region))
  {
    forall e: nat, b | Precedes(history, t, c, region, e, b)
      ensures IsMoved(b, region.box, history[|history| - 1].ts - history[e].ts, Counted(history, t, c),
                      BoxFor(history, t, c, region))
    {
      PrecededMoves(history, t, c, region, e, b);
    }
  }

  /** The regions of the selected frame whose kind is to be blurred, in order. */
  ghost function WantedOf(regions: seq<Region>, face: bool, plate: bool): seq<Region> {
    Filter(regions, (r: Region) => if r.target == Face then face else plate)
  }

  lemma {:induction false} BoxesAreInOrder(history: seq<BlurFrame>, t: int, c: Config, face: bool, plate: bool,
                                           regions: seq<Region>)
    requires c.Valid() && Increasing(history) && history != []
    ensures var wanted, boxes := WantedOf(regions, face, plate), BoxesOf(history, t, c, face, plate, regions);
            |boxes| == |wanted| && forall k :: 0 <= k < |boxes| ==> IsRight(history, t, c, wanted[k], boxes[k])
  {
    if regions != [] {
      var n := |regions| - 1;
      BoxesAreInOrder(history, t, c, face, plate, regions[..n]);
      BoxIsRight(history, t, c, regions[n]);
    }
  }

  /** One box is returned for each wanted region of the selected frame, in order, and it is the right one. */
  lemma ReturnedBoxesAreRight(history: seq<BlurFrame>, t: int, c: Config, face: bool, plate: bool)
    requires c.Valid() && Increasing(history)
    ensures var boxes := Boxes(history, t, c, face, plate);
            if history == [] || Selected(history, t, c).None? then boxes == []
            else
              var wanted := WantedOf(history[Selected(history, t, c).value].regions, face, plate);
              |boxes| == |wanted| && forall k :: 0 <= k < |boxes| ==> IsRight(history, t, c, wanted[k], boxes[k])
  {
    if history != [] && Selected(history, t, c).Some? {
      BoxesAreInOrder(history, t, c, face, plate, history[Selected(history, t, c).value].regions);
    }
  }
}
