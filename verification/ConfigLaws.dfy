/** The loader accepts what the writer writes: exactly when, and what stays unchanged. */
module ConfigLaws {
  import opened Domain
  import opened ConfigLoader
  import opened ConfigWriter

  // ---------- trimming ----------

  lemma {:induction false} TrimRightKeepsStart(s: string)
    requires s != [] && !IsSpace(s[0])
    ensures TrimRight(s) != [] && TrimRight(s)[0] == s[0]
  {
    if IsSpace(s[|s| - 1]) { TrimRightKeepsStart(s[..|s| - 1]); }
  }

  lemma {:induction false} TrimLeftStarts(s: string)
    ensures TrimLeft(s) != [] ==> !IsSpace(TrimLeft(s)[0])
  {
    if s != [] && IsSpace(s[0]) { TrimLeftStarts(s[1..]); }
  }

  /** What starts with something visible is not blank. */
  lemma NotBlank(s: string)
    requires s != [] && !IsSpace(s[0])
    ensures Trim(s) != ""
  {
    TrimRightKeepsStart(s);
  }

  lemma TrimmedIsNotBlank(s: string)
    requires Trim(s) != ""
    ensures Trim(Trim(s)) != ""
  {
    TrimLeftStarts(s);
    if TrimLeft(s) != [] {
      TrimRightKeepsStart(TrimLeft(s));
      NotBlank(Trim(s));
    }
  }

  // ---------- appending ----------

  predicate Apart(ids: seq<string>, others: set<string>) {
    forall k :: 0 <= k < |ids| ==> ids[k] !in others
  }

  /** The addition as such clashes with nothing in the file. */
  ghost predicate Fresh(doc: Doc, a: Addition) {
    && Apart(CameraIds(a.streams), CameraIdsOf(doc.streams)) && Apart([a.area.areaId], TrimmedAreaIds(doc.areas))
    && (doc.areas == [] && doc.initialAreaId.Some? ==> Trim(doc.initialAreaId.value) == a.area.areaId)
  }

  lemma {:induction false} FreeGrows(prefix: string, start: nat, used: set<string>, m: nat, n: nat)
    requires start <= m <= n
    ensures FreeBelow(prefix, start, used, m) <= FreeBelow(prefix, start, used, n)
      <= FreeBelow(prefix, start, used, m) + (n - m)
    ensures m < n && Identifier(prefix, m) !in used
        ==> FreeBelow(prefix, start, used, m) < FreeBelow(prefix, start, used, n)
  {
    if m < n { FreeGrows(prefix, start, used, m, n - 1); }
  }

  lemma SameRankSameNumber(prefix: string, start: nat, used: set<string>, m: nat, n: nat)
    requires m >= start && n >= start && Identifier(prefix, m) !in used && Identifier(prefix, n) !in used
    requires FreeBelow(prefix, start, used, m) == FreeBelow(prefix, start, used, n)
    ensures m == n
  {
    if m < n { FreeGrows(prefix, start, used, m, n); }
    if n < m { FreeGrows(prefix, start, used, n, m); }
  }

  lemma {:induction false} RankBelow(prefix: string, start: nat, used: set<string>, n: nat, k: nat) returns (m: nat)
    requires FreeBelow(prefix, start, used, n) > k
    ensures start <= m < n && Identifier(prefix, m) !in used && FreeBelow(prefix, start, used, m) == k
  {
    m := n - 1;
    if FreeBelow(prefix, start, used, n - 1) > k { m := RankBelow(prefix, start, used, n - 1, k); }
  }

  /** Number `k` of those that `ids` was made from. */
  ghost predicate IsNumber(prefix: string, start: nat, used: set<string>, ids: seq<string>, k: nat, n: nat) {
    k < |ids| && ids[k] == Identifier(prefix, n) && n >= start + k && Identifier(prefix, n) !in used
    && FreeBelow(prefix, start, used, n) == k
  }

  /** Every identifier is the first free one after those before it. */
  ghost predicate Successive(prefix: string, start: nat, used: set<string>, ids: seq<string>) {
    forall k :: 0 <= k < |ids| ==> FirstFree(prefix, start + k, used + Prior(ids, k), ids[k])
  }

  ghost function Prior(ids: seq<string>, k: nat): set<string>
    requires k <= |ids|
  {
    set j | 0 <= j < k :: ids[j]
  }

  /** So they are the lowest free ones, in order. */
  lemma {:induction false} SuccessiveAreLowest(prefix: string, start: nat, used: set<string>, ids: seq<string>, k: nat)
    returns (n: nat)
    requires Successive(prefix, start, used, ids) && k < |ids|
    ensures IsNumber(prefix, start, used, ids, k, n)
  {
    var taken := used + Prior(ids, k);
    n :| ids[k] == Identifier(prefix, n) && IsFirstFree(prefix, start + k, taken, n);
    var rank := FreeBelow(prefix, start, used, n);
    if rank < k {
      assert ids[rank] in taken;
      var m := SuccessiveAreLowest(prefix, start, used, ids, rank);
      SameRankSameNumber(prefix, start, used, m, n);
    } else if rank > k {
      var m := RankBelow(prefix, start, used, n, k);
      FreeGrows(prefix, start, used, start, m);
      assert Identifier(prefix, m) in taken;
      var j :| 0 <= j < k && ids[j] == Identifier(prefix, m);
      var i := SuccessiveAreLowest(prefix, start, used, ids, j);
      IdentifierInjective(prefix, i, m);
    }
  }

  lemma LowestAreIn(prefix: string, start: nat, used: set<string>, ids: seq<string>, n: nat) returns (k: nat)
    requires Successive(prefix, start, used, ids) && IsLowFree(prefix, start, used, |ids|, n)
    ensures k < |ids| && ids[k] == Identifier(prefix, n)
  {
    k := FreeBelow(prefix, start, used, n);
    var m := SuccessiveAreLowest(prefix, start, used, ids, k);
    SameRankSameNumber(prefix, start, used, m, n);
  }

  lemma ApartExactly(prefix: string, start: nat, used: set<string>, ids: seq<string>, others: set<string>)
    requires Successive(prefix, start, used, ids)
    ensures Apart(ids, others) <==> LowFreeApart(prefix, start, used, |ids|, others)
  {
    if n: nat :| IsLowFree(prefix, start, used, |ids|, n) && Identifier(prefix, n) in others {
      var k := LowestAreIn(prefix, start, used, ids, n);
    }
    if k :| 0 <= k < |ids| && ids[k] in others {
      var n := SuccessiveAreLowest(prefix, start, used, ids, k);
      assert IsLowFree(prefix, start, used, |ids|, n);
    }
  }

  lemma CamerasApart(streams: seq<StreamDoc>, added: seq<StreamDoc>)
    ensures Apart(CameraIds(added), CameraIdsOf(streams))
       <==> forall i, k :: 0 <= i < |streams| && 0 <= k < |added| ==> Trim(streams[i].cameraId) != added[k].cameraId
  {
    if Apart(CameraIds(added), CameraIdsOf(streams)) {
      forall i, k | 0 <= i < |streams| && 0 <= k < |added| ensures Trim(streams[i].cameraId) != added[k].cameraId {
        assert CameraIds(added)[k] !in CameraIdsOf(streams);
      }
    }
  }

  lemma AreasApart(areas: seq<AreaDoc>, area: AreaDoc)
    ensures Apart([area.areaId], TrimmedAreaIds(areas))
       <==> forall i :: 0 <= i < |areas| ==> Trim(areas[i].areaId) != area.areaId
  {
    if Apart([area.areaId], TrimmedAreaIds(areas)) {
      assert [area.areaId][0] !in TrimmedAreaIds(areas);
    }
  }

  lemma CamerasFree(doc: Doc, name: string, urls: seq<string>, a: Addition)
    requires IsAddition(doc, name, urls, a)
    ensures Apart(CameraIds(a.streams), CameraIdsOf(doc.streams))
       <==> LowFreeApart(CAMERA, |doc.streams| + 1, RawCameraIds(doc.streams), CHANNELS_PER_AREA,
                         CameraIdsOf(doc.streams))
  {
    NewCameras(doc, name, urls, a);
    ApartExactly(CAMERA, |doc.streams| + 1, RawCameraIds(doc.streams), CameraIds(a.streams), CameraIdsOf(doc.streams));
  }

  lemma AreaFree(doc: Doc, name: string, urls: seq<string>, a: Addition)
    requires IsAddition(doc, name, urls, a)
    ensures Apart([a.area.areaId], TrimmedAreaIds(doc.areas))
       <==> LowFreeApart(AREA, |doc.areas| + 1, RawAreaIds(doc.areas), 1, TrimmedAreaIds(doc.areas))
    ensures doc.areas == [] ==> a.area.areaId == "area-01"
  {
    NewArea(doc, name, urls, a);
    ApartExactly(AREA, |doc.areas| + 1, RawAreaIds(doc.areas), [a.area.areaId], TrimmedAreaIds(doc.areas));
  }

  /** What the addition clashes with can be said of the file alone. */
  lemma FreshExactly(doc: Doc, name: string, urls: seq<string>, a: Addition)
    requires IsAddition(doc, name, urls, a)
    ensures Fresh(doc, a) <==> NoHiddenCollision(doc) && InitialFits(doc)
  {
    CamerasFree(doc, name, urls, a);
    AreaFree(doc, name, urls, a);
  }

  function CameraIds(streams: seq<StreamDoc>): (ids: seq<string>)
    ensures |ids| == |streams|
  {
    seq(|streams|, k requires 0 <= k < |streams| => streams[k].cameraId)
  }

  lemma NewCameras(doc: Doc, name: string, urls: seq<string>, a: Addition)
    requires IsAddition(doc, name, urls, a)
    ensures Successive(CAMERA, |doc.streams| + 1, RawCameraIds(doc.streams), CameraIds(a.streams))
  {
    var ids := CameraIds(a.streams);
    forall k | 0 <= k < |ids|
      ensures FirstFree(CAMERA, |doc.streams| + 1 + k, RawCameraIds(doc.streams) + Prior(ids, k), ids[k])
    {
      SameIds(a.streams, k);
    }
  }

  lemma SameIds(streams: seq<StreamDoc>, k: nat)
    requires k <= |streams|
    ensures RawCameraIds(streams[..k]) == Prior(CameraIds(streams), k)
  {
    assert forall j :: 0 <= j < k ==> streams[..k][j].cameraId == CameraIds(streams)[j];
  }

  lemma NewArea(doc: Doc, name: string, urls: seq<string>, a: Addition)
    requires IsAddition(doc, name, urls, a)
    ensures Successive(AREA, |doc.areas| + 1, RawAreaIds(doc.areas), [a.area.areaId])
    ensures doc.areas == [] ==> a.area.areaId == "area-01"
  {
    assert RawAreaIds(doc.areas) + {} == RawAreaIds(doc.areas);
    var ids := [a.area.areaId];
    assert Prior(ids, 0) == {};
    if doc.areas == [] {
      var number: nat :| a.area.areaId == Identifier(AREA, number) && IsFirstFree(AREA, 1, RawAreaIds([]), number);
      assert RawAreaIds([]) == {};
      assert Identifier(AREA, 1) == "area-01";
    }
  }

  /** How many of the numbers from `start` up to `n` no identifier uses. */
  ghost function FreeBelow(prefix: string, start: nat, used: set<string>, n: nat): nat {
    if n <= start then 0
    else FreeBelow(prefix, start, used, n - 1) + if Identifier(prefix, n - 1) in used then 0 else 1
  }

  /** One of the lowest `count` free numbers from `start` on. */
  ghost predicate IsLowFree(prefix: string, start: nat, used: set<string>, count: nat, n: nat) {
    n >= start && Identifier(prefix, n) !in used && FreeBelow(prefix, start, used, n) < count
  }

  ghost predicate LowFreeApart(prefix: string, start: nat, used: set<string>, count: nat, others: set<string>) {
    forall n: nat :: IsLowFree(prefix, start, used, count, n) ==> Identifier(prefix, n) !in others
  }

  ghost function TrimmedAreaIds(areas: seq<AreaDoc>): set<string> {
    set i | 0 <= i < |areas| :: Trim(areas[i].areaId)
  }

  /** Nobody wrote one of the identifiers that are due with blanks around it: the writer compares them
      as they stand, the loader after trimming. */
  ghost predicate NoHiddenCollision(doc: Doc) {
    && LowFreeApart(CAMERA, |doc.streams| + 1, RawCameraIds(doc.streams), CHANNELS_PER_AREA, CameraIdsOf(doc.streams))
    && LowFreeApart(AREA, |doc.areas| + 1, RawAreaIds(doc.areas), 1, TrimmedAreaIds(doc.areas))
  }

  /** A leftover initial area in a file without areas names the area that is due. */
  predicate InitialFits(doc: Doc) {
    doc.areas == [] && doc.initialAreaId.Some? ==> Trim(doc.initialAreaId.value) == "area-01"
  }

  predicate ZoneFits(doc: Doc) { doc.zones == [] || BoxOk(NextZoneBox(doc.zones)) }

  lemma NewStreamOk(s: StreamDoc, channel: nat, url: string, channelCount: int, isRtsp: UrlTest, used: set<string>,
                    start: nat)
    requires NewStream(s, channel, url) && channel < channelCount && UrlOk(url, isRtsp)
    requires FirstFree(CAMERA, start, used, s.cameraId)
    ensures StreamOk(s, channelCount, isRtsp) && Trim(s.cameraId) == s.cameraId
  {
    var number: nat :| s.cameraId == Identifier(CAMERA, number) && IsFirstFree(CAMERA, start, used, number);
    IdentifierIsTrimmed(CAMERA, number);
    NotBlank(s.name);
  }

  lemma AddedStreamsOk(streams: seq<StreamDoc>, added: seq<StreamDoc>, urls: seq<string>, channelCount: int,
                       isRtsp: UrlTest, k: nat)
    requires CamerasNew(streams, added) && NewStreams(added, |streams|, urls) && k < |added|
    requires |streams| + |added| <= channelCount
    requires forall j :: 0 <= j < |urls| ==> UrlOk(urls[j], isRtsp)
    ensures StreamOk(added[k], channelCount, isRtsp) && Trim(added[k].cameraId) == added[k].cameraId
    ensures added[k].channelIndex == |streams| + k
  {
    NewStreamOk(added[k], |streams| + k, urls[k], channelCount, isRtsp,
                RawCameraIds(streams) + RawCameraIds(added[..k]), |streams| + k + 1);
  }

  lemma AddedIdsDiffer(streams: seq<StreamDoc>, added: seq<StreamDoc>, j: nat, k: nat)
    requires CamerasNew(streams, added) && j < k < |added|
    ensures added[j].cameraId != added[k].cameraId
  {}

  lemma OldAndNewDiffer(streams: seq<StreamDoc>, added: seq<StreamDoc>, urls: seq<string>, n: int, isRtsp: UrlTest,
                        i: nat, k: nat)
    requires StreamsAccepted(streams, n, isRtsp) && CamerasNew(streams, added) && NewStreams(added, n, urls)
    requires forall j :: 0 <= j < |urls| ==> UrlOk(urls[j], isRtsp)
    requires i < |streams| && k < |added| && Trim(streams[i].cameraId) != added[k].cameraId
    ensures Trim(streams[i].cameraId) != Trim(added[k].cameraId) && streams[i].channelIndex != added[k].channelIndex
  {
    AddedStreamsOk(streams, added, urls, n + |added|, isRtsp, k);
    assert StreamOk(streams[i], n, isRtsp);
  }

  lemma NewOnesDiffer(streams: seq<StreamDoc>, added: seq<StreamDoc>, urls: seq<string>, isRtsp: UrlTest, j: nat,
                      k: nat)
    requires CamerasNew(streams, added) && NewStreams(added, |streams|, urls) && j < k < |added|
    requires forall i :: 0 <= i < |urls| ==> UrlOk(urls[i], isRtsp)
    ensures Trim(added[j].cameraId) != Trim(added[k].cameraId) && added[j].channelIndex != added[k].channelIndex
  {
    AddedStreamsOk(streams, added, urls, |streams| + |added|, isRtsp, j);
    AddedStreamsOk(streams, added, urls, |streams| + |added|, isRtsp, k);
    AddedIdsDiffer(streams, added, j, k);
  }

  predicate Differ(s: StreamDoc, t: StreamDoc) {
    Trim(s.cameraId) != Trim(t.cameraId) && s.channelIndex != t.channelIndex
  }

  lemma DifferInPairs(streams: seq<StreamDoc>, added: seq<StreamDoc>)
    requires forall i, j :: 0 <= i < j < |streams| ==> Differ(streams[i], streams[j])
    requires forall i, k :: 0 <= i < |streams| && 0 <= k < |added| ==> Differ(streams[i], added[k])
    requires forall j, k :: 0 <= j < k < |added| ==> Differ(added[j], added[k])
    ensures StreamsDiffer(streams + added)
  {}

  lemma ExtendedStreamsDiffer(streams: seq<StreamDoc>, added: seq<StreamDoc>, urls: seq<string>, n: int,
                              isRtsp: UrlTest)
    requires StreamsAccepted(streams, n, isRtsp) && CamerasNew(streams, added) && NewStreams(added, n, urls)
    requires forall j :: 0 <= j < |urls| ==> UrlOk(urls[j], isRtsp)
    requires forall i, k :: 0 <= i < |streams| && 0 <= k < |added| ==> Trim(streams[i].cameraId) != added[k].cameraId
    ensures StreamsDiffer(streams + added)
  {
    forall i, k | 0 <= i < |streams| && 0 <= k < |added| ensures Differ(streams[i], added[k]) {
      OldAndNewDiffer(streams, added, urls, n, isRtsp, i, k);
    }
    forall j, k | 0 <= j < k < |added| ensures Differ(added[j], added[k]) {
      NewOnesDiffer(streams, added, urls, isRtsp, j, k);
    }
    DifferInPairs(streams, added);
  }

  lemma ExtendedChannelsCovered(streams: seq<StreamDoc>, added: seq<StreamDoc>, urls: seq<string>, n: nat)
    requires |streams| == n && ChannelsCovered(streams, n) && NewStreams(added, n, urls)
    ensures ChannelsCovered(streams + added, n + |added|)
  {
    var all := streams + added;
    forall channel | 0 <= channel < n + |added| ensures HasChannel(all, channel) {
      if channel < n {
        assert HasChannel(streams, channel);
        var i :| OnChannel(streams, i, channel);
        assert OnChannel(all, i, channel);
      } else {
        assert NewStream(added[channel - n], n + (channel - n), urls[channel - n]);
        assert OnChannel(all, channel, channel);
      }
    }
  }

  lemma ExtendedStreamsAccepted(streams: seq<StreamDoc>, added: seq<StreamDoc>, urls: seq<string>, n: nat,
                                isRtsp: UrlTest)
    requires StreamsAccepted(streams, n, isRtsp) && CamerasNew(streams, added) && NewStreams(added, n, urls)
    requires forall j :: 0 <= j < |urls| ==> UrlOk(urls[j], isRtsp)
    requires forall i, k :: 0 <= i < |streams| && 0 <= k < |added| ==> Trim(streams[i].cameraId) != added[k].cameraId
    ensures StreamsAccepted(streams + added, n + |added|, isRtsp)
  {
    ExtendedStreamsDiffer(streams, added, urls, n, isRtsp);
    ExtendedChannelsCovered(streams, added, urls, n);
    var all := streams + added;
    forall i | 0 <= i < |all| ensures StreamOk(all[i], n + |added|, isRtsp) {
      ExtendedStreamOk(streams, added, urls, n, isRtsp, i);
    }
  }

  lemma ExtendedStreamOk(streams: seq<StreamDoc>, added: seq<StreamDoc>, urls: seq<string>, n: nat, isRtsp: UrlTest,
                         i: nat)
    requires StreamsAccepted(streams, n, isRtsp) && CamerasNew(streams, added) && NewStreams(added, n, urls)
    requires (forall j :: 0 <= j < |urls| ==> UrlOk(urls[j], isRtsp)) && i < n + |added|
    ensures StreamOk((streams + added)[i], n + |added|, isRtsp)
  {
    if i < n {
      assert (streams + added)[i] == streams[i];
      MoreChannels(streams[i], n, n + |added|, isRtsp);
    } else {
      assert (streams + added)[i] == added[i - n];
      AddedStreamsOk(streams, added, urls, n + |added|, isRtsp, i - n);
    }
  }

  lemma MoreChannels(s: StreamDoc, n: nat, more: nat, isRtsp: UrlTest)
    requires StreamOk(s, n, isRtsp) && n <= more
    ensures StreamOk(s, more, isRtsp)
  {}

  lemma OldAreaStaysOk(streams: seq<StreamDoc>, added: seq<StreamDoc>, area: AreaDoc, a: int)
    requires AreaOk(streams, area, a)
    ensures AreaOk(streams + added, area, a)
  {
    forall slot | 0 <= slot < |area.streamIds|
      ensures SlotOk(streams + added, area.streamIds[slot], CHANNELS_PER_AREA * a + slot) {
      var channel := CHANNELS_PER_AREA * a + slot;
      assert SlotOk(streams, area.streamIds[slot], channel);
      var i :| IsCamera(streams, i, Trim(area.streamIds[slot]), channel);
      assert IsCamera(streams + added, i, Trim(area.streamIds[slot]), channel);
    }
  }

  lemma NewAreaNamed(doc: Doc, name: string, urls: seq<string>, a: Addition)
    requires IsAddition(doc, name, urls, a) && Trim(name) != ""
    ensures AreaNamed(a.area) && Trim(a.area.areaId) == a.area.areaId
  {
    var number: nat :| a.area.areaId == Identifier(AREA, number)
        && IsFirstFree(AREA, |doc.areas| + 1, RawAreaIds(doc.areas), number);
    IdentifierIsTrimmed(AREA, number);
    TrimmedIsNotBlank(name);
  }

  lemma NewSlotOk(streams: seq<StreamDoc>, added: seq<StreamDoc>, urls: seq<string>, isRtsp: UrlTest, id: string,
                  slot: nat)
    requires CamerasNew(streams, added) && NewStreams(added, |streams|, urls) && slot < |added|
    requires id == added[slot].cameraId
    requires forall j :: 0 <= j < |urls| ==> UrlOk(urls[j], isRtsp)
    ensures SlotOk(streams + added, id, |streams| + slot)
  {
    AddedStreamsOk(streams, added, urls, |streams| + |added|, isRtsp, slot);
    assert (streams + added)[|streams| + slot] == added[slot];
    assert IsCamera(streams + added, |streams| + slot, Trim(id), |streams| + slot);
  }

  lemma NewAreaOk(doc: Doc, name: string, urls: seq<string>, isRtsp: UrlTest, a: Addition)
    requires IsAddition(doc, name, urls, a) && Trim(name) != ""
    requires forall j :: 0 <= j < |urls| ==> UrlOk(urls[j], isRtsp)
    requires |doc.streams| == CHANNELS_PER_AREA * |doc.areas|
    ensures AreaOk(doc.streams + a.streams, a.area, |doc.areas|)
  {
    NewAreaNamed(doc, name, urls, a);
    forall slot | 0 <= slot < |a.area.streamIds|
      ensures SlotOk(doc.streams + a.streams, a.area.streamIds[slot], CHANNELS_PER_AREA * |doc.areas| + slot)
    {
      NewSlotOk(doc.streams, a.streams, urls, isRtsp, a.area.streamIds[slot], slot);
    }
  }

  lemma ExtendedIdsDiffer(areas: seq<AreaDoc>, area: AreaDoc)
    requires AreaIdsDiffer(areas) && Trim(area.areaId) == area.areaId
    requires forall i :: 0 <= i < |areas| ==> Trim(areas[i].areaId) != area.areaId
    ensures AreaIdsDiffer(areas + [area])
  {}

  lemma ExtendedInitialOk(areas: seq<AreaDoc>, area: AreaDoc, initialAreaId: Option<string>)
    requires InitialOk(areas, initialAreaId) && Trim(area.areaId) == area.areaId && area.areaId != ""
    requires areas == [] && initialAreaId.Some? ==> Trim(initialAreaId.value) == area.areaId
    ensures InitialOk(areas + [area], initialAreaId)
  {
    if initialAreaId.Some? {
      var id := Trim(initialAreaId.value);
      if areas == [] {
        assert IsArea(areas + [area], 0, id);
      } else {
        var i :| IsArea(areas, i, id);
        assert IsArea(areas + [area], i, id);
      }
    }
  }

  lemma ExtendedAreasOk(streams: seq<StreamDoc>, added: seq<StreamDoc>, areas: seq<AreaDoc>, area: AreaDoc)
    requires forall a :: 0 <= a < |areas| ==> AreaOk(streams, areas[a], a)
    requires AreaOk(streams + added, area, |areas|)
    ensures forall a :: 0 <= a < |areas + [area]| ==> AreaOk(streams + added, (areas + [area])[a], a)
  {
    forall a | 0 <= a < |areas + [area]| ensures AreaOk(streams + added, (areas + [area])[a], a) {
      if a < |areas| { OldAreaStaysOk(streams, added, areas[a], a); }
    }
  }

  lemma ExtendedAreasAccepted(doc: Doc, name: string, urls: seq<string>, isRtsp: UrlTest, a: Addition)
    requires Accepted(doc, isRtsp) && IsAddition(doc, name, urls, a) && Trim(name) != ""
    requires forall j :: 0 <= j < |urls| ==> UrlOk(urls[j], isRtsp)
    requires forall i :: 0 <= i < |doc.areas| ==> Trim(doc.areas[i].areaId) != a.area.areaId
    requires doc.areas == [] && doc.initialAreaId.Some? ==> Trim(doc.initialAreaId.value) == a.area.areaId
    ensures AreasAccepted(doc.streams + a.streams, doc.areas + [a.area], doc.initialAreaId)
  {
    NewAreaNamed(doc, name, urls, a);
    NewAreaOk(doc, name, urls, isRtsp, a);
    ExtendedAreasOk(doc.streams, a.streams, doc.areas, a.area);
    ExtendedIdsDiffer(doc.areas, a.area);
    ExtendedInitialOk(doc.areas, a.area, doc.initialAreaId);
  }

  lemma ExtendedZonesOk(zones: seq<Box>, n: nat)
    requires ZonesOk(zones, n) && n < MAXIMUM_ZONE_COUNT
    ensures ZonesOk(zones + (if zones == [] then [] else [NextZoneBox(zones)]), n + 1)
       <==> zones == [] || BoxOk(NextZoneBox(zones))
  {
    if zones == [] {
      assert zones + [] == [];
    } else {
      var more := zones + [NextZoneBox(zones)];
      assert more[|zones|] == NextZoneBox(zones);
    }
  }

  /** The file stays acceptable after `appendArea` exactly if no identifier that is due hides behind
      blanks in an old one, a leftover initial area names the area that is due, and the new zone box
      is within the coordinate limits. All three are about the file as it is. */
  lemma AppendAcceptedExactly(doc: Doc, name: string, urls: seq<string>, isRtsp: UrlTest, a: Addition)
    requires Accepted(doc, isRtsp) && IsAddition(doc, name, urls, a) && Trim(name) != ""
    requires |doc.areas| < MAXIMUM_ZONE_COUNT
    requires forall j :: 0 <= j < |urls| ==> UrlOk(urls[j], isRtsp)
    ensures Accepted(Extended(doc, a), isRtsp) <==> NoHiddenCollision(doc) && InitialFits(doc) && ZoneFits(doc)
  {
    FreshExactly(doc, name, urls, a);
    if Fresh(doc, a) && ZoneFits(doc) { FreshIsAccepted(doc, name, urls, isRtsp, a); }
    if Accepted(Extended(doc, a), isRtsp) {
      AcceptedIsFresh(doc, name, urls, isRtsp, a);
      ExtendedZonesOk(doc.zones, |doc.areas|);
    }
  }

  lemma FreshIsAccepted(doc: Doc, name: string, urls: seq<string>, isRtsp: UrlTest, a: Addition)
    requires Accepted(doc, isRtsp) && IsAddition(doc, name, urls, a) && Trim(name) != ""
    requires |doc.areas| < MAXIMUM_ZONE_COUNT && Fresh(doc, a) && ZoneFits(doc)
    requires forall j :: 0 <= j < |urls| ==> UrlOk(urls[j], isRtsp)
    ensures Accepted(Extended(doc, a), isRtsp)
  {
    ExtendedZonesOk(doc.zones, |doc.areas|);
    CamerasApart(doc.streams, a.streams);
    AreasApart(doc.areas, a.area);
    ExtendedStreamsAccepted(doc.streams, a.streams, urls, |doc.streams|, isRtsp);
    ExtendedAreasAccepted(doc, name, urls, isRtsp, a);
  }

  lemma NoCameraCollision(streams: seq<StreamDoc>, added: seq<StreamDoc>, i: nat, k: nat)
    requires StreamsDiffer(streams + added) && i < |streams| && k < |added|
    requires Trim(added[k].cameraId) == added[k].cameraId
    ensures Trim(streams[i].cameraId) != added[k].cameraId
  {
    assert (streams + added)[i] == streams[i] && (streams + added)[|streams| + k] == added[k];
  }

  lemma NoAreaCollision(areas: seq<AreaDoc>, area: AreaDoc, i: nat)
    requires AreaIdsDiffer(areas + [area]) && i < |areas| && Trim(area.areaId) == area.areaId
    ensures Trim(areas[i].areaId) != area.areaId
  {
    assert (areas + [area])[i] == areas[i] && (areas + [area])[|areas|] == area;
  }

  lemma AcceptedInitialFits(doc: Doc, a: Addition)
    requires InitialOk(doc.areas + [a.area], doc.initialAreaId) && Trim(a.area.areaId) == a.area.areaId
    ensures doc.areas == [] && doc.initialAreaId.Some? ==> Trim(doc.initialAreaId.value) == a.area.areaId
  {}

  lemma AcceptedIsFresh(doc: Doc, name: string, urls: seq<string>, isRtsp: UrlTest, a: Addition)
    requires Accepted(Extended(doc, a), isRtsp) && IsAddition(doc, name, urls, a) && Trim(name) != ""
    requires forall j :: 0 <= j < |urls| ==> UrlOk(urls[j], isRtsp)
    ensures Fresh(doc, a)
  {
    NewAreaNamed(doc, name, urls, a);
    AcceptedInitialFits(doc, a);
    CamerasApart(doc.streams, a.streams);
    AreasApart(doc.areas, a.area);
    forall i, k | 0 <= i < |doc.streams| && 0 <= k < |a.streams|
      ensures Trim(doc.streams[i].cameraId) != a.streams[k].cameraId {
      AddedStreamsOk(doc.streams, a.streams, urls, |doc.streams| + CHANNELS_PER_AREA, isRtsp, k);
      NoCameraCollision(doc.streams, a.streams, i, k);
    }
    forall i | 0 <= i < |doc.areas| ensures Trim(doc.areas[i].areaId) != a.area.areaId {
      NoAreaCollision(doc.areas, a.area, i);
    }
  }

  /** With trimmed identifiers and no leftover initial area only the zone box can be a problem. */
  lemma TrimmedFileStaysAccepted(doc: Doc, name: string, urls: seq<string>, isRtsp: UrlTest, a: Addition)
    requires Accepted(doc, isRtsp) && IsAddition(doc, name, urls, a) && Trim(name) != ""
    requires |doc.areas| < MAXIMUM_ZONE_COUNT
    requires forall j :: 0 <= j < |urls| ==> UrlOk(urls[j], isRtsp)
    requires forall i :: 0 <= i < |doc.streams| ==> Trim(doc.streams[i].cameraId) == doc.streams[i].cameraId
    requires forall i :: 0 <= i < |doc.areas| ==> Trim(doc.areas[i].areaId) == doc.areas[i].areaId
    requires (doc.areas == [] ==> doc.initialAreaId.None?) && ZoneFits(doc)
    ensures Accepted(Extended(doc, a), isRtsp)
  {
    assert forall n: nat :: Identifier(CAMERA, n) in CameraIdsOf(doc.streams) ==>
      Identifier(CAMERA, n) in RawCameraIds(doc.streams);
    assert forall n: nat :: Identifier(AREA, n) in TrimmedAreaIds(doc.areas) ==>
      Identifier(AREA, n) in RawAreaIds(doc.areas);
    AppendAcceptedExactly(doc, name, urls, isRtsp, a);
  }

  /** The first area added to a fresh file that still names an initial area makes it unreadable,
      unless that name happens to be the new identifier. */
  lemma LeftoverInitialAreaBlocksFirstArea(initial: string, name: string, urls: seq<string>, isRtsp: UrlTest,
                                           a: Addition)
    requires var doc := Doc([], [], Some(initial), []); IsAddition(doc, name, urls, a)
    requires Trim(name) != "" && forall j :: 0 <= j < |urls| ==> UrlOk(urls[j], isRtsp)
    ensures Accepted(Doc([], [], Some(initial), []), isRtsp)
    ensures a.area.areaId == "area-01"
    ensures Accepted(Extended(Doc([], [], Some(initial), []), a), isRtsp) <==> Trim(initial) == "area-01"
  {
    var doc := Doc([], [], Some(initial), []);
    NewArea(doc, name, urls, a);
    AppendAcceptedExactly(doc, name, urls, isRtsp, a);
  }

  // ---------- a blank in the file ----------

  /** One area with four cameras, of which the last is written with a blank after it. */
  function BlankFile(url: string): Doc {
    Doc([StreamDoc("a", "N", url, 0, true), StreamDoc("b", "N", url, 1, true), StreamDoc("c", "N", url, 2, true),
         StreamDoc("cam-05 ", "N", url, 3, true)],
        [AreaDoc("p", "P", ["a", "b", "c", "cam-05"])], None, [])
  }

  lemma BlankIsTrimmed()
    ensures Trim("cam-05 ") == "cam-05" && Trim("cam-05") == "cam-05"
    ensures Trim("a") == "a" && Trim("b") == "b" && Trim("c") == "c" && Trim("N") == "N"
  {
    assert "cam-05 "[..6] == "cam-05";
  }

  lemma BlankStreamsAccepted(url: string, isRtsp: UrlTest)
    requires UrlOk(url, isRtsp)
    ensures StreamsAccepted(BlankFile(url).streams, CHANNELS_PER_AREA, isRtsp)
  {
    var streams := BlankFile(url).streams;
    BlankIsTrimmed();
    assert forall i :: 0 <= i < |streams| ==>
      streams[i].channelIndex == i && StreamOk(streams[i], CHANNELS_PER_AREA, isRtsp);
    forall channel | 0 <= channel < CHANNELS_PER_AREA ensures HasChannel(streams, channel) {
      assert OnChannel(streams, channel, channel);
    }
  }

  lemma BlankAreasAccepted(url: string)
    ensures AreasAccepted(BlankFile(url).streams, BlankFile(url).areas, None)
  {
    var streams, area := BlankFile(url).streams, BlankFile(url).areas[0];
    BlankIsTrimmed();
    forall slot | 0 <= slot < |area.streamIds| ensures SlotOk(streams, area.streamIds[slot], slot) {
      assert IsCamera(streams, slot, Trim(area.streamIds[slot]), slot);
    }
    assert AreaOk(streams, area, 0);
  }

  lemma BlankFileAccepted(url: string, isRtsp: UrlTest)
    requires UrlOk(url, isRtsp)
    ensures Accepted(BlankFile(url), isRtsp)
  {
    BlankStreamsAccepted(url, isRtsp);
    BlankAreasAccepted(url);
  }

  /** The loader accepts the file, but neither after an area has been appended nor can its area be edited. */
  lemma BlankBreaksFile(url: string, name: string, urls: seq<string>, isRtsp: UrlTest, a: Addition)
    requires UrlOk(url, isRtsp) && IsAddition(BlankFile(url), name, urls, a) && Trim(name) != ""
    requires forall j :: 0 <= j < |urls| ==> UrlOk(urls[j], isRtsp)
    ensures Accepted(BlankFile(url), isRtsp) && !Accepted(Extended(BlankFile(url), a), isRtsp)
    ensures !Editable(BlankFile(url), 0, name, urls, isRtsp)
  {
    var doc := BlankFile(url);
    BlankFileAccepted(url, isRtsp);
    BlankCollides(url);
    AppendAcceptedExactly(doc, name, urls, isRtsp, a);
    AcceptedIsEditable(doc, 0, name, urls, isRtsp);
    assert OnChannel(doc.streams, 3, 3) && doc.streams[3].cameraId != doc.areas[0].streamIds[3];
  }

  lemma BlankCollides(url: string)
    ensures !NoHiddenCollision(BlankFile(url))
  {
    var streams := BlankFile(url).streams;
    BlankIsTrimmed();
    assert Identifier(CAMERA, 5) == "cam-05";
    assert IsLowFree(CAMERA, 5, RawCameraIds(streams), CHANNELS_PER_AREA, 5);
    assert Trim(streams[3].cameraId) in CameraIdsOf(streams);
  }

  lemma OldChannelStays(streams: seq<StreamDoc>, added: seq<StreamDoc>, before: seq<StreamDoc>, after: seq<StreamDoc>,
                        channel: nat)
    requires InChannelOrder(streams, before) && InChannelOrder(streams + added, after) && StreamsDiffer(streams + added)
    requires channel < |before|
    ensures after[channel] == before[channel]
  {
    var all := streams + added;
    assert before[channel].channelIndex == channel;
    var i :| OnChannel(streams, i, channel) && before[channel] == ReadStream(streams[i]);
    assert after[channel].channelIndex == channel;
    var j :| OnChannel(all, j, channel) && after[channel] == ReadStream(all[j]);
    assert all[i] == streams[i];
    assert i == j;
  }

  lemma InitialStays(areas: seq<AreaDoc>, area: AreaDoc, initialAreaId: Option<string>, before: int, after: int)
    requires areas != [] && InitialIs(areas, initialAreaId, before) && InitialIs(areas + [area], initialAreaId, after)
    ensures before == after
  {
    if initialAreaId.Some? {
      var id := Trim(initialAreaId.value);
      assert IsArea(areas, before, id);
      assert IsArea(areas + [area], before, id);
      assert after < |areas| ==> IsArea(areas, after, id);
    }
  }

  /** Appending changes nothing of what was loaded before: the old channels, areas and zone boxes
      come first, in the same order, and the initial area stays. */
  lemma AppendKeepsLoaded(doc: Doc, name: string, urls: seq<string>, isRtsp: UrlTest, a: Addition, before: Config,
                          after: Config)
    requires Accepted(doc, isRtsp) && IsAddition(doc, name, urls, a) && Accepted(Extended(doc, a), isRtsp)
    requires LoadedAs(doc, before) && LoadedAs(Extended(doc, a), after)
    ensures |after.streams| == |before.streams| + CHANNELS_PER_AREA && |after.areas| == |before.areas| + 1
    ensures forall channel :: 0 <= channel < |before.streams| ==> after.streams[channel] == before.streams[channel]
    ensures forall i :: 0 <= i < |before.areas| ==>
              after.areas[i].areaId == before.areas[i].areaId && after.areas[i].name == before.areas[i].name
              && after.areas[i].channelIndexes == before.areas[i].channelIndexes
    ensures doc.areas != [] ==> after.initialAreaIndex == before.initialAreaIndex
  {
    forall channel | 0 <= channel < |before.streams| ensures after.streams[channel] == before.streams[channel] {
      OldChannelStays(doc.streams, a.streams, before.streams, after.streams, channel);
    }
    forall i | 0 <= i < |before.areas|
      ensures after.areas[i].areaId == before.areas[i].areaId && after.areas[i].name == before.areas[i].name
      ensures after.areas[i].channelIndexes == before.areas[i].channelIndexes
    {
      assert (doc.areas + [a.area])[i] == doc.areas[i];
    }
    if doc.areas != [] {
      InitialStays(doc.areas, a.area, doc.initialAreaId, before.initialAreaIndex, after.initialAreaIndex);
    }
  }

  // ---------- editing ----------

  /** Same streams up to their addresses, all of them usable. */
  ghost predicate SameButUrls(streams: seq<StreamDoc>, edited: seq<StreamDoc>, isRtsp: UrlTest) {
    && |edited| == |streams|
    && forall i :: 0 <= i < |streams| ==> edited[i] == streams[i].(url := edited[i].url) && UrlOk(edited[i].url, isRtsp)
  }

  lemma {:induction false} RepointedKeeps(streams: seq<StreamDoc>, ids: seq<string>, urls: seq<string>, n: nat,
                                          isRtsp: UrlTest)
    requires n <= |ids| && n <= |urls| && Repointed(streams, ids, urls, n).Some?
    requires forall i :: 0 <= i < |streams| ==> UrlOk(streams[i].url, isRtsp)
    requires forall j :: 0 <= j < |urls| ==> UrlOk(urls[j], isRtsp)
    ensures SameButUrls(streams, Repointed(streams, ids, urls, n).value, isRtsp)
  {
    if n > 0 { RepointedKeeps(streams, ids, urls, n - 1, isRtsp); }
  }

  lemma SameCameras(streams: seq<StreamDoc>, edited: seq<StreamDoc>, isRtsp: UrlTest, channelCount: int)
    requires SameButUrls(streams, edited, isRtsp) && StreamsAccepted(streams, channelCount, isRtsp)
    ensures StreamsAccepted(edited, channelCount, isRtsp)
    ensures forall area: AreaDoc, a: int :: AreaOk(streams, area, a) ==> AreaOk(edited, area, a)
  {
    forall channel | 0 <= channel < channelCount ensures HasChannel(edited, channel) {
      assert HasChannel(streams, channel);
      var i :| OnChannel(streams, i, channel);
      assert OnChannel(edited, i, channel);
    }
    forall i | 0 <= i < |edited| ensures StreamOk(edited[i], channelCount, isRtsp) {
      assert StreamOk(streams[i], channelCount, isRtsp);
    }
    forall area: AreaDoc, a: int | AreaOk(streams, area, a) ensures AreaOk(edited, area, a) {
      forall slot | 0 <= slot < |area.streamIds|
        ensures SlotOk(edited, area.streamIds[slot], CHANNELS_PER_AREA * a + slot) {
        var channel := CHANNELS_PER_AREA * a + slot;
        assert SlotOk(streams, area.streamIds[slot], channel);
        var i :| IsCamera(streams, i, Trim(area.streamIds[slot]), channel);
        assert IsCamera(edited, i, Trim(area.streamIds[slot]), channel);
      }
    }
  }

  lemma RenamedAreasOk(streams: seq<StreamDoc>, edited: seq<StreamDoc>, areas: seq<AreaDoc>, k: nat, name: string)
    requires forall a :: 0 <= a < |areas| ==> AreaOk(streams, areas[a], a)
    requires forall area: AreaDoc, a: int :: AreaOk(streams, area, a) ==> AreaOk(edited, area, a)
    requires k < |areas| && Trim(name) != ""
    ensures var renamed := areas[k := areas[k].(name := Trim(name))];
            forall a :: 0 <= a < |renamed| ==> AreaOk(edited, renamed[a], a)
  {
    TrimmedIsNotBlank(name);
    var renamed := areas[k := areas[k].(name := Trim(name))];
    forall a | 0 <= a < |renamed| ensures AreaOk(edited, renamed[a], a) {
      assert AreaOk(streams, areas[a], a) && AreaOk(edited, areas[a], a);
    }
  }

  lemma RenamedInitialOk(areas: seq<AreaDoc>, k: nat, name: string, initialAreaId: Option<string>)
    requires k < |areas| && InitialOk(areas, initialAreaId) && AreaIdsDiffer(areas)
    ensures var renamed := areas[k := areas[k].(name := Trim(name))];
      InitialOk(renamed, initialAreaId) && AreaIdsDiffer(renamed)
  {
    if initialAreaId.Some? {
      var i :| IsArea(areas, i, Trim(initialAreaId.value));
      assert IsArea(areas[k := areas[k].(name := Trim(name))], i, Trim(initialAreaId.value));
    }
  }

  /** An area of an acceptable file can be edited exactly if each slot names the camera of its channel
      to the letter; the reader forgives blanks. */
  lemma AcceptedIsEditable(doc: Doc, areaIndex: int, name: string, urls: seq<string>, isRtsp: UrlTest)
    requires Accepted(doc, isRtsp) && 0 <= areaIndex < |doc.areas| && Trim(name) != "" && |urls| == CHANNELS_PER_AREA
    requires forall j :: 0 <= j < |urls| ==> UrlOk(urls[j], isRtsp)
    requires AreaNamed(doc.areas[areaIndex])
    ensures Editable(doc, areaIndex, name, urls, isRtsp)
       <==> forall k :: 0 <= k < CHANNELS_PER_AREA ==>
              NamesCamera(doc.streams, doc.areas[areaIndex].streamIds[k], CHANNELS_PER_AREA * areaIndex + k)
  {
    forall k | 0 <= k < CHANNELS_PER_AREA
      ensures doc.areas[areaIndex].streamIds[k] in RawCameraIds(doc.streams)
         <==> NamesCamera(doc.streams, doc.areas[areaIndex].streamIds[k], CHANNELS_PER_AREA * areaIndex + k)
    {
      assert AreaOk(doc.streams, doc.areas[areaIndex], areaIndex);
      NamedExactly(doc.streams, doc.areas[areaIndex].streamIds[k], CHANNELS_PER_AREA * areaIndex + k);
    }
  }

  /** The camera of this channel has exactly this identifier. */
  ghost predicate NamesCamera(streams: seq<StreamDoc>, id: string, channel: int) {
    forall i :: OnChannel(streams, i, channel) ==> streams[i].cameraId == id
  }

  lemma NamedExactly(streams: seq<StreamDoc>, id: string, channel: int)
    requires StreamsDiffer(streams) && SlotOk(streams, id, channel)
    ensures id in RawCameraIds(streams) <==> NamesCamera(streams, id, channel)
  {
    var i :| IsCamera(streams, i, Trim(id), channel);
    assert OnChannel(streams, i, channel) && streams[i].cameraId in RawCameraIds(streams);
    if id in RawCameraIds(streams) {
      var j :| 0 <= j < |streams| && streams[j].cameraId == id;
      assert i == j;
    }
  }

  /** An edit that succeeds on an acceptable file leaves it acceptable. */
  lemma EditStaysAccepted(doc: Doc, areaIndex: int, name: string, urls: seq<string>, isRtsp: UrlTest)
    requires Accepted(doc, isRtsp) && Editable(doc, areaIndex, name, urls, isRtsp)
    ensures Repointed(doc.streams, doc.areas[areaIndex].streamIds, urls, CHANNELS_PER_AREA).Some?
    ensures Accepted(Edited(doc, areaIndex, name, urls), isRtsp)
  {
    RepointedExactly(doc.streams, doc.areas[areaIndex].streamIds, urls, CHANNELS_PER_AREA);
    var n := |doc.areas| * CHANNELS_PER_AREA;
    forall i | 0 <= i < |doc.streams| ensures UrlOk(doc.streams[i].url, isRtsp) {
      assert StreamOk(doc.streams[i], n, isRtsp);
    }
    RepointedKeeps(doc.streams, doc.areas[areaIndex].streamIds, urls, CHANNELS_PER_AREA, isRtsp);
    var edited := Edited(doc, areaIndex, name, urls);
    SameCameras(doc.streams, edited.streams, isRtsp, n);
    RenamedAreasOk(doc.streams, edited.streams, doc.areas, areaIndex, name);
    RenamedInitialOk(doc.areas, areaIndex, name, doc.initialAreaId);
  }

  /** The stream found for a slot is the one on the slot's channel. */
  lemma FoundOnItsChannel(streams: seq<StreamDoc>, area: AreaDoc, a: int, slot: int, i: nat)
    requires StreamsDiffer(streams) && AreaOk(streams, area, a) && 0 <= slot < CHANNELS_PER_AREA
    requires i < |streams| && streams[i].cameraId == area.streamIds[slot]
    ensures streams[i].channelIndex == CHANNELS_PER_AREA * a + slot
  {}

  /** The stream with its address as changed by the first `n` slots of area `a`. */
  function Moved(s: StreamDoc, a: int, urls: seq<string>, n: nat): StreamDoc
    requires n <= |urls|
  {
    var slot := s.channelIndex - CHANNELS_PER_AREA * a;
    if 0 <= slot < n then s.(url := urls[slot]) else s
  }

  lemma OneMoreMoved(streams: seq<StreamDoc>, area: AreaDoc, a: int, urls: seq<string>, n: nat, before: seq<StreamDoc>,
                     k: nat, i: nat)
    requires StreamsDiffer(streams) && AreaOk(streams, area, a) && 0 < n <= CHANNELS_PER_AREA == |urls|
    requires |before| == |streams| && forall j :: 0 <= j < |streams| ==> before[j] == Moved(streams[j], a, urls, n - 1)
    requires k < |streams| && before[k].cameraId == area.streamIds[n - 1] && i < |streams|
    ensures before[k := before[k].(url := urls[n - 1])][i] == Moved(streams[i], a, urls, n)
  {
    FoundOnItsChannel(streams, area, a, n - 1, k);
  }

  /** An edit changes the addresses of exactly the area's four channels, slot by slot. */
  lemma {:induction false} EditMovesOnlyItsChannels(streams: seq<StreamDoc>, area: AreaDoc, a: int, urls: seq<string>,
                                                    n: nat)
    requires StreamsDiffer(streams) && AreaOk(streams, area, a) && n <= CHANNELS_PER_AREA == |urls|
    requires Repointed(streams, area.streamIds, urls, n).Some?
    ensures var r := Repointed(streams, area.streamIds, urls, n).value;
            |r| == |streams| && forall i :: 0 <= i < |streams| ==> r[i] == Moved(streams[i], a, urls, n)
  {
    if n > 0 {
      EditMovesOnlyItsChannels(streams, area, a, urls, n - 1);
      var before := Repointed(streams, area.streamIds, urls, n - 1).value;
      var k := FirstRaw(before, area.streamIds[n - 1]);
      forall i | 0 <= i < |streams|
        ensures before[k := before[k].(url := urls[n - 1])][i] == Moved(streams[i], a, urls, n)
      {
        OneMoreMoved(streams, area, a, urls, n, before, k, i);
      }
    }
  }
}
