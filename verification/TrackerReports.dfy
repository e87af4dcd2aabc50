/** What a snapshot says of the objects of the frames: zone, risk level and pairs at risk, of objects that
    are there and of missing ones. */
module TrackerReports {
  import opened TrackerFilters
  import opened TrackerState
  import opened TrackerLifecycle
  import opened TrackerPulses

  // ---------- observed objects ----------

  ghost predicate IsFirst(objects: seq<RiskObject>, j: nat) {
    j < |objects| && objects[j].globalId !in Ids(objects[..j])
  }

  /** The entry reports object `j` of the frame, the first with its id. */
  ghost predicate ReportsObject(o: Shown, objects: seq<RiskObject>, j: nat) {
    && IsFirst(objects, j) && o.id == objects[j].globalId && o.observed
    && o.zoneId == objects[j].zoneId && o.riskLevel == objects[j].riskLevel
  }

  ghost predicate AllReported(shown: seq<Shown>, objects: seq<RiskObject>) {
    forall k :: 0 <= k < |shown| ==> IsReported(shown[k], objects)
  }

  ghost predicate IsReported(o: Shown, objects: seq<RiskObject>) { exists j: nat :: ReportsObject(o, objects, j) }

  lemma {:induction false} DrawnReports(c: Config, s: Tracker, objects: seq<RiskObject>, n: nat, now: int)
    requires n <= |objects|
    ensures AllReported(DrawnAll(c, s, objects, n, now).objects, objects)
  {
    if n > 0 {
      DrawnReports(c, s, objects, n - 1, now);
      DrawnEntry(c, s, objects, n - 1, now);
      AddsReport(DrawnAll(c, s, objects, n - 1, now).objects, DrawnAll(c, s, objects, n, now).objects, objects, n - 1);
    }
  }

  /** Nothing is added, or the entry of object `n`. */
  ghost predicate Adds(before: seq<Shown>, after: seq<Shown>, objects: seq<RiskObject>, n: nat) {
    || after == before
    || (|after| == |before| + 1 && after[..|before|] == before && ReportsObject(after[|before|], objects, n))
  }

  lemma DrawnEntry(c: Config, s: Tracker, objects: seq<RiskObject>, n: nat, now: int)
    requires n < |objects|
    ensures Adds(DrawnAll(c, s, objects, n, now).objects, DrawnAll(c, s, objects, n + 1, now).objects, objects, n)
  {
    DrawnAllListed(c, s, objects, n, now);
    var d := DrawnAll(c, s, objects, n, now);
    assert objects[n].globalId in d.current.Keys <==> objects[n].globalId in Ids(objects[..n]);
  }

  lemma AddsReport(before: seq<Shown>, after: seq<Shown>, objects: seq<RiskObject>, n: nat)
    requires AllReported(before, objects) && Adds(before, after, objects, n)
    ensures AllReported(after, objects)
  {
    forall k | 0 <= k < |after| ensures IsReported(after[k], objects) {
      if k < |before| { assert after[k] == before[k]; }
    }
  }

  /** Each object of the latest frame is reported, with zone and risk level as the frame lists it first. */
  lemma ObservedAsListed(c: Config, s: Tracker, now: int, k: nat) returns (j: nat)
    requires Drawable(s) && k < |Picture(c, s, now).observed|
    ensures ReportsObject(Picture(c, s, now).observed[k], Latest(s), j)
  {
    DrawnReports(c, Quiet(s), Latest(s), |Latest(s)|, now);
    assert IsReported(Picture(c, s, now).observed[k], Latest(s));
    j :| ReportsObject(Picture(c, s, now).observed[k], Latest(s), j);
  }

  // ---------- missing objects ----------

  ghost predicate IsLastListed(objects: seq<RiskObject>, id: int, o: RiskObject) {
    exists j :: 0 <= j < |objects| && objects[j] == o && o.globalId == id
                && forall i :: j < i < |objects| ==> objects[i].globalId != id
  }

  lemma {:induction false} SeenIsLast(life: Lifecycle, objects: seq<RiskObject>, id: int)
    ensures var after := Seen(life, objects).retained;
            if id in Ids(objects) then id in after && IsLastListed(objects, id, after[id])
            else Lookup(after, id) == Lookup(life.retained, id)
  {
    if objects != [] {
      var n := |objects| - 1;
      SeenIsLast(life, objects[..n], id);
      IdsOneMore(objects);
      if objects[n].globalId != id && id in Ids(objects) {
        var o := Seen(life, objects[..n]).retained[id];
        var j :| 0 <= j < n && objects[..n][j] == o && o.globalId == id
                 && forall i :: j < i < n ==> objects[..n][i].globalId != id;
        assert forall i :: j < i < |objects| ==> objects[i].globalId != id;
      }
    }
  }

  /** A frame leaves of each retained object what it says of it last, or what was known before. */
  lemma RetainedAsListed(life: Lifecycle, objects: seq<RiskObject>, now: int, retention: int, id: int)
    requires id in LifeAfter(life, objects, now, retention).retained
    ensures var o := LifeAfter(life, objects, now, retention).retained[id];
            if id in Ids(objects) then IsLastListed(objects, id, o) else id in life.retained && o == life.retained[id]
  {
    SeenIsLast(life, objects, id);
    SeenKeys(life, objects);
  }

  /** A missing object is reported with the zone and risk level that are retained of it. */
  lemma MissingAsRetained(c: Config, s: Tracker, now: int, id: int)
    requires Drawable(s) && id in Picture(c, s, now).missing
    ensures var o := Picture(c, s, now).missing[id];
            && id in s.life.retained && o.id == id && !o.observed && o.velocity == Point(0.0, 0.0)
            && o.zoneId == s.life.retained[id].zoneId && o.riskLevel == s.life.retained[id].riskLevel
  {}

  // ---------- pairs at risk ----------

  /** The zone under which the frame lists an object last. */
  ghost predicate HasZone(objects: seq<RiskObject>, id: int, zone: int) {
    exists j :: 0 <= j < |objects| && objects[j].globalId == id && objects[j].zoneId == zone
                && forall i :: j < i < |objects| ==> objects[i].globalId != id
  }

  lemma {:induction false} ZoneIsLast(objects: seq<RiskObject>, id: int)
    ensures id in Ids(objects) ==> HasZone(objects, id, ZoneOf(objects, id))
    ensures id !in Ids(objects) ==> ZoneOf(objects, id) == -1
  {
    if objects != [] {
      var n := |objects| - 1;
      ZoneIsLast(objects[..n], id);
      IdsOneMore(objects);
      if objects[n].globalId != id && id in Ids(objects) {
        var j :| 0 <= j < n && objects[..n][j].globalId == id && objects[..n][j].zoneId == ZoneOf(objects[..n], id)
                 && forall i :: j < i < n ==> objects[..n][i].globalId != id;
        assert forall i :: j < i < |objects| ==> objects[i].globalId != id;
      }
    }
  }

  lemma ZoneIsUnique(objects: seq<RiskObject>, id: int, zone: int)
    requires HasZone(objects, id, zone)
    ensures ZoneOf(objects, id) == zone
  {
    var j :| 0 <= j < |objects| && objects[j].globalId == id && objects[j].zoneId == zone
             && forall i :: j < i < |objects| ==> objects[i].globalId != id;
    assert id in Ids(objects);
    ZoneIsLast(objects, id);
  }

  /** Object `k` warns of its nearest one: both are in the frame, under the same group of four cameras. */
  ghost predicate Warns(objects: seq<RiskObject>, k: nat) {
    && IsFirst(objects, k) && objects[k].riskLevel != Normal && objects[k].nearestId > 0 && objects[k].zoneId >= 0
    && exists zone :: HasZone(objects, objects[k].nearestId, zone) && zone >= 0 && zone / 4 == objects[k].zoneId / 4
  }

  lemma WarnsExactly(objects: seq<RiskObject>, k: nat)
    ensures Warns(objects, k) <==> Counts(objects, k)
  {
    if k < |objects| {
      var id := objects[k].nearestId;
      ZoneIsLast(objects, id);
      if zone :| HasZone(objects, id, zone) {
        ZoneIsUnique(objects, id, zone);
        assert id in Ids(objects);
      }
    }
  }

  /** The first to warn of this pair sets its level. */
  ghost predicate IsPair(objects: seq<RiskObject>, n: nat, pair: PairRisk, k: nat)
    requires n <= |objects|
  {
    && k < n && Warns(objects, k) && (pair.first, pair.second) == KeyOf(objects[k])
    && pair.riskLevel == objects[k].riskLevel
    && forall j :: 0 <= j < k && Warns(objects, j) ==> KeyOf(objects[j]) != KeyOf(objects[k])
  }

  ghost predicate HasKey(objects: seq<RiskObject>, n: nat, key: (int, int)) {
    exists k: nat :: k < n && Warns(objects, k) && KeyOf(objects[k]) == key
  }

  ghost predicate IsPairOf(objects: seq<RiskObject>, n: nat, pair: PairRisk)
    requires n <= |objects|
  {
    exists k: nat :: IsPair(objects, n, pair, k)
  }

  lemma HasKeyOneMore(objects: seq<RiskObject>, n: nat, key: (int, int))
    ensures HasKey(objects, n + 1, key) <==> HasKey(objects, n, key) || (Warns(objects, n) && KeyOf(objects[n]) == key)
  {
    if HasKey(objects, n, key) {
      var k: nat :| k < n && Warns(objects, k) && KeyOf(objects[k]) == key;
      assert k < n + 1;
    }
    if Warns(objects, n) && KeyOf(objects[n]) == key { assert n < n + 1; }
  }

  lemma IsPairOneMore(objects: seq<RiskObject>, n: nat, pair: PairRisk)
    requires n < |objects|
    ensures IsPairOf(objects, n + 1, pair) <==>
              || IsPairOf(objects, n, pair)
              || (Warns(objects, n) && !HasKey(objects, n, KeyOf(objects[n]))
                  && (pair.first, pair.second) == KeyOf(objects[n]) && pair.riskLevel == objects[n].riskLevel)
  {
    if IsPairOf(objects, n, pair) {
      var k: nat :| IsPair(objects, n, pair, k);
      assert IsPair(objects, n + 1, pair, k);
    }
    if IsPairOf(objects, n + 1, pair) {
      var k: nat :| IsPair(objects, n + 1, pair, k);
      assert k < n ==> IsPair(objects, n, pair, k);
    }
    if Warns(objects, n) && !HasKey(objects, n, KeyOf(objects[n]))
       && (pair.first, pair.second) == KeyOf(objects[n]) && pair.riskLevel == objects[n].riskLevel {
      assert IsPair(objects, n + 1, pair, n);
    }
  }

  ghost predicate SameKeys(pairs: seq<PairRisk>, objects: seq<RiskObject>, n: nat) {
    forall key: (int, int) :: HasPair(pairs, key.0, key.1) <==> HasKey(objects, n, key)
  }

  lemma {:induction false} KeysAre(objects: seq<RiskObject>, n: nat)
    requires n <= |objects|
    ensures SameKeys(Pairs(objects, n), objects, n)
  {
    if n > 0 {
      KeysAre(objects, n - 1);
      WarnsExactly(objects, n - 1);
      forall key: (int, int) ensures HasPair(Pairs(objects, n), key.0, key.1) <==> HasKey(objects, n, key) {
        HasKeyOneMore(objects, n - 1, key);
        PairAdded(objects, n - 1, key);
      }
    }
  }

  lemma {:induction false} PairsAre(objects: seq<RiskObject>, n: nat, pair: PairRisk)
    requires n <= |objects|
    ensures pair in Pairs(objects, n) <==> IsPairOf(objects, n, pair)
  {
    if n > 0 {
      PairsAre(objects, n - 1, pair);
      KeysAre(objects, n - 1);
      WarnsExactly(objects, n - 1);
      IsPairOneMore(objects, n - 1, pair);
      LastPair(objects, n - 1, pair);
    }
  }

  lemma LastPair(objects: seq<RiskObject>, n: nat, pair: PairRisk)
    requires n < |objects| && SameKeys(Pairs(objects, n), objects, n)
    ensures pair in Pairs(objects, n + 1) <==>
              || pair in Pairs(objects, n)
              || (Counts(objects, n) && !HasKey(objects, n, KeyOf(objects[n]))
                  && (pair.first, pair.second) == KeyOf(objects[n]) && pair.riskLevel == objects[n].riskLevel)
  {
    var key := KeyOf(objects[n]);
    assert HasPair(Pairs(objects, n), key.0, key.1) <==> HasKey(objects, n, key);
  }

  lemma PairAdded(objects: seq<RiskObject>, n: nat, key: (int, int))
    requires n < |objects|
    ensures HasPair(Pairs(objects, n + 1), key.0, key.1) <==>
              HasPair(Pairs(objects, n), key.0, key.1) || (Counts(objects, n) && KeyOf(objects[n]) == key)
  {
    var before, after := Pairs(objects, n), Pairs(objects, n + 1);
    if i :| 0 <= i < |before| && before[i].first == key.0 && before[i].second == key.1 {
      assert after[i] == before[i];
    }
    if |after| > |before| { assert (after[|before|].first, after[|before|].second) == KeyOf(objects[n]); }
  }

  /** The pairs of a snapshot: one for each two objects of which at least one warns of the other. */
  lemma PairsAsWarned(c: Config, s: Tracker, now: int, pair: PairRisk)
    requires Drawable(s)
    ensures pair in Picture(c, s, now).pairs <==> IsPairOf(Latest(s), |Latest(s)|, pair)
  {
    PairsDrawn(c, Quiet(s), Latest(s), |Latest(s)|, now);
    PairsAre(Latest(s), |Latest(s)|, pair);
  }
}
