/** Appending and editing an area of the configuration file (ApplicationConfigWriter), and exactly
    when the loader accepts the result. */
module ConfigWriter {
  import opened Domain
  import opened ConfigLoader
  import opened Decimal

  // ---------- identifiers ----------

  /** At least two digits, padded with zero. */
  function Padded(n: nat): (s: string)
    ensures |s| >= 2
  {
    if n < 10 then ['0', Digit(n)] else Digits(n / 10) + [Digit(n % 10)]
  }

  lemma PaddedLeads(n: nat)
    requires n >= 10
    ensures Padded(n)[0] != '0'
  {
    LeadingDigit(n / 10);
    assert Padded(n)[0] == Digits(n / 10)[0];
  }

  lemma PaddedInjective(n: nat, m: nat)
    requires Padded(n) == Padded(m)
    ensures n == m
  {
    assert Padded(n)[|Padded(n)| - 1] == Digit(n % 10) && Padded(m)[|Padded(m)| - 1] == Digit(m % 10);
    if n >= 10 { PaddedLeads(n); }
    if m >= 10 { PaddedLeads(m); }
    if n >= 10 && m >= 10 {
      assert Digits(n / 10) == Padded(n)[..|Padded(n)| - 1] == Digits(m / 10);
      DigitsInjective(n / 10, m / 10);
    }
  }

  function Identifier(prefix: string, n: nat): string { prefix + Padded(n) }

  lemma IdentifierInjective(prefix: string, n: nat, m: nat)
    requires Identifier(prefix, n) == Identifier(prefix, m)
    ensures n == m
  {
    assert Padded(n) == Identifier(prefix, n)[|prefix|..] == Identifier(prefix, m)[|prefix|..] == Padded(m);
    PaddedInjective(n, m);
  }

  /** The smallest free number from `start` on. */
  ghost predicate IsFirstFree(prefix: string, start: nat, used: set<string>, n: nat) {
    && n >= start && Identifier(prefix, n) !in used
    && forall k :: start <= k < n ==> Identifier(prefix, k) in used
  }

  /** The search for a free identifier ends: each turn meets another used one. */
  method UniqueIdentifier(prefix: string, start: nat, used: set<string>) returns (id: string, number: nat)
    ensures IsFirstFree(prefix, start, used, number) && id == Identifier(prefix, number)
  {
    number := start;
    ghost var left := used;
    while Identifier(prefix, number) in used
      invariant number >= start && left <= used
      invariant forall k :: start <= k < number ==> Identifier(prefix, k) in used
      invariant forall k :: k >= number && Identifier(prefix, k) in used ==> Identifier(prefix, k) in left
      decreases |left|
    {
      ghost var met := Identifier(prefix, number);
      forall k | k >= number + 1 && Identifier(prefix, k) in used ensures Identifier(prefix, k) in left - {met} {
        if Identifier(prefix, k) == met { IdentifierInjective(prefix, k, number); }
      }
      left := left - {met};
      number := number + 1;
    }
    id := Identifier(prefix, number);
  }

  /** A generated identifier survives trimming. */
  lemma IdentifierIsTrimmed(prefix: string, n: nat)
    requires prefix != [] && !IsSpace(prefix[0])
    ensures Trim(Identifier(prefix, n)) == Identifier(prefix, n) && Identifier(prefix, n) != ""
  {}

  // ---------- a new zone box ----------

  function NextZoneBox(zones: seq<Box>): Box
    requires zones != []
  {
    var last := zones[|zones| - 1];
    var stride := (last.maxX - last.minX) * 1.25;
    var dx := if |zones| >= 2 then last.minX - zones[|zones| - 2].minX else stride;
    var dy := if |zones| >= 2 then last.minY - zones[|zones| - 2].minY else 0.0;
    var offset := if dx == 0.0 && dy == 0.0 then stride else dx;
    Box(last.minX + offset, last.minY + dy, last.maxX + offset, last.maxY + dy)
  }

  /** The new box has the size of the last one and never lies exactly on it. */
  lemma NextZoneKeepsSize(zones: seq<Box>)
    requires zones != [] && BoxOk(zones[|zones| - 1])
    ensures var last, next := zones[|zones| - 1], NextZoneBox(zones);
            && next.maxX - next.minX == last.maxX - last.minX && next.maxY - next.minY == last.maxY - last.minY
            && next != last
            && (BoxOk(next) <==>
                  && WithinLimit(next.minX) && WithinLimit(next.minY)
                  && WithinLimit(next.maxX) && WithinLimit(next.maxY))
  {}

  /** A row of boxes goes on with the step between its last two; a single box is followed by one to its
      right, a quarter of its width apart. */
  lemma NextZoneContinuesRow(zones: seq<Box>)
    requires zones != [] && BoxOk(zones[|zones| - 1])
    ensures var last, next := zones[|zones| - 1], NextZoneBox(zones);
            && (|zones| == 1 ==> next.minX - last.maxX == (last.maxX - last.minX) / 4.0 && next.minY == last.minY)
            && (|zones| > 1 ==>
                  var before := zones[|zones| - 2];
                  if before.minX == last.minX && before.minY == last.minY then
                    next.minX - last.maxX == (last.maxX - last.minX) / 4.0 && next.minY == last.minY
                  else next.minX - last.minX == last.minX - before.minX
                       && next.minY - last.minY == last.minY - before.minY)
  {}

  predicate Overlap(a: Box, b: Box) { a.minX < b.maxX && b.minX < a.maxX && a.minY < b.maxY && b.minY < a.maxY }

  /** Going on with the step between the last two boxes avoids the last one exactly if it avoided the one
      before; a single box is always avoided. */
  lemma NextZoneAvoidsLastExactly(zones: seq<Box>)
    requires zones != [] && forall i :: 0 <= i < |zones| ==> BoxOk(zones[i])
    ensures var last, next := zones[|zones| - 1], NextZoneBox(zones);
            Overlap(last, next) <==>
              && |zones| > 1
              && var before := zones[|zones| - 2];
                 && (before.minX != last.minX || before.minY != last.minY)
                 && Near(last.minX - before.minX, last.maxX - last.minX)
                    && Near(last.minY - before.minY, last.maxY - last.minY)
  {}

  /** Two boxes that overlap by half are followed by one that overlaps the second. */
  lemma NextZoneOverlaps()
    ensures var zones := [Box(0.0, 0.0, 4.0, 4.0), Box(2.0, 0.0, 6.0, 4.0)];
            NextZoneBox(zones) == Box(4.0, 0.0, 8.0, 4.0) && Overlap(zones[1], NextZoneBox(zones))
  {}

  predicate Near(step: real, size: real) { -size < step < size }

  // ---------- appending ----------

  const CAMERA := "cam-"
  const AREA := "area-"

  ghost function RawCameraIds(streams: seq<StreamDoc>): set<string> {
    set i | 0 <= i < |streams| :: streams[i].cameraId
  }

  ghost function RawAreaIds(areas: seq<AreaDoc>): set<string> {
    set i | 0 <= i < |areas| :: areas[i].areaId
  }

  /** What `appendArea` adds: four streams on the next channels, with names and identifiers of its
      own, and an area that shows them. */
  datatype Addition = Addition(streams: seq<StreamDoc>, area: AreaDoc, zones: seq<Box>)

  predicate NewStream(s: StreamDoc, channel: nat, url: string) {
    s == StreamDoc(s.cameraId, "CH - " + Padded(channel + 1), url, channel, true)
  }

  function Extended(doc: Doc, a: Addition): Doc {
    doc.(streams := doc.streams + a.streams, areas := doc.areas + [a.area], zones := doc.zones + a.zones)
  }

  ghost predicate FirstFree(prefix: string, start: nat, used: set<string>, id: string) {
    exists number: nat :: id == Identifier(prefix, number) && IsFirstFree(prefix, start, used, number)
  }

  /** Each camera takes the first identifier that neither the file nor an earlier new camera uses. */
  ghost predicate CamerasNew(streams: seq<StreamDoc>, added: seq<StreamDoc>) {
    forall k :: 0 <= k < |added| ==>
      FirstFree(CAMERA, |streams| + k + 1, RawCameraIds(streams) + RawCameraIds(added[..k]), added[k].cameraId)
  }

  /** The choices `appendArea` makes for a file. */
  ghost predicate IsAddition(doc: Doc, name: string, urls: seq<string>, a: Addition) {
    && |a.streams| == CHANNELS_PER_AREA == |urls| == |a.area.streamIds|
    && NewStreams(a.streams, |doc.streams|, urls)
    && (forall k :: 0 <= k < CHANNELS_PER_AREA ==> a.area.streamIds[k] == a.streams[k].cameraId)
    && CamerasNew(doc.streams, a.streams)
    && FirstFree(AREA, |doc.areas| + 1, RawAreaIds(doc.areas), a.area.areaId)
    && a.area.name == Trim(name)
    && a.zones == if doc.zones == [] then [] else [NextZoneBox(doc.zones)]
  }

  predicate UrlOk(url: string, isRtsp: UrlTest) { Trim(url) != "" && isRtsp(Trim(url)) }

  method UsedCameraIds(streams: seq<StreamDoc>) returns (used: set<string>)
    ensures used == RawCameraIds(streams)
  {
    used := {};
    for i := 0 to |streams|
      invariant used == RawCameraIds(streams[..i])
    {
      OneMoreRawId(streams, i);
      used := used + {streams[i].cameraId};
    }
    assert streams[..|streams|] == streams;
  }

  ghost predicate NewStreams(added: seq<StreamDoc>, first: nat, urls: seq<string>) {
    |added| <= |urls| && forall k :: 0 <= k < |added| ==> NewStream(added[k], first + k, urls[k])
  }

  ghost predicate Appending(streams: seq<StreamDoc>, urls: seq<string>, added: seq<StreamDoc>, used: set<string>) {
    && used == RawCameraIds(streams) + RawCameraIds(added)
    && CamerasNew(streams, added) && NewStreams(added, |streams|, urls)
  }

  /** One turn of the loop over the new channels. */
  method AppendStream(streams: seq<StreamDoc>, urls: seq<string>, added: seq<StreamDoc>, used: set<string>)
    returns (more: seq<StreamDoc>, usedMore: set<string>)
    requires Appending(streams, urls, added, used) && |added| < |urls|
    ensures Appending(streams, urls, more, usedMore) && |more| == |added| + 1
  {
    var channel := |streams| + |added|;
    var id, number := UniqueIdentifier(CAMERA, channel + 1, used);
    var s := StreamDoc(id, "CH - " + Padded(channel + 1), urls[|added|], channel, true);
    OneMoreCamera(streams, added, s);
    OneMoreNewStream(added, |streams|, urls, s);
    more, usedMore := added + [s], used + {id};
  }

  lemma OneMoreNewStream(added: seq<StreamDoc>, first: nat, urls: seq<string>, s: StreamDoc)
    requires NewStreams(added, first, urls) && |added| < |urls| && NewStream(s, first + |added|, urls[|added|])
    ensures NewStreams(added + [s], first, urls)
  {}

  method AppendStreams(streams: seq<StreamDoc>, urls: seq<string>) returns (added: seq<StreamDoc>)
    requires |urls| == CHANNELS_PER_AREA
    ensures |added| == CHANNELS_PER_AREA && CamerasNew(streams, added) && NewStreams(added, |streams|, urls)
  {
    var used := UsedCameraIds(streams);
    added := [];
    NothingAppended(streams, urls, used);
    for k := 0 to CHANNELS_PER_AREA
      invariant |added| == k && Appending(streams, urls, added, used)
    {
      added, used := AppendStream(streams, urls, added, used);
    }
  }

  lemma NothingAppended(streams: seq<StreamDoc>, urls: seq<string>, used: set<string>)
    requires used == RawCameraIds(streams)
    ensures Appending(streams, urls, [], used)
  {}

  lemma OneMoreCamera(streams: seq<StreamDoc>, added: seq<StreamDoc>, s: StreamDoc)
    requires CamerasNew(streams, added)
    requires FirstFree(CAMERA, |streams| + |added| + 1, RawCameraIds(streams) + RawCameraIds(added), s.cameraId)
    ensures CamerasNew(streams, added + [s])
    ensures RawCameraIds(added + [s]) == RawCameraIds(added) + {s.cameraId}
  {
    var more := added + [s];
    OneMoreRawId(more, |added|);
    assert more[..|added|] == added && more[..|more|] == more;
    forall k | 0 <= k < |more|
      ensures FirstFree(CAMERA, |streams| + k + 1, RawCameraIds(streams) + RawCameraIds(more[..k]), more[k].cameraId)
    {
      if k < |added| { assert more[..k] == added[..k] && more[k] == added[k]; }
    }
  }

  lemma OneMoreRawId(streams: seq<StreamDoc>, i: nat)
    requires i < |streams|
    ensures RawCameraIds(streams[..i + 1]) == RawCameraIds(streams[..i]) + {streams[i].cameraId}
  {}

  lemma OneMoreRawArea(areas: seq<AreaDoc>, i: nat)
    requires i < |areas|
    ensures RawAreaIds(areas[..i + 1]) == RawAreaIds(areas[..i]) + {areas[i].areaId}
  {}

  method FreeAreaId(areas: seq<AreaDoc>) returns (id: string)
    ensures FirstFree(AREA, |areas| + 1, RawAreaIds(areas), id)
  {
    var used: set<string> := {};
    for i := 0 to |areas|
      invariant used == RawAreaIds(areas[..i])
    {
      OneMoreRawArea(areas, i);
      used := used + {areas[i].areaId};
    }
    assert areas[..|areas|] == areas;
    var number;
    id, number := UniqueIdentifier(AREA, |areas| + 1, used);
  }

  /** `appendArea` on the contents of the file; an error message of the original is `None`. The
      addresses are given with credentials filled in. */
  method AppendArea(doc: Doc, name: string, urls: seq<string>, isRtsp: UrlTest) returns (result: Option<Doc>)
    ensures result.Some?
       <==> Trim(name) != "" && |urls| == CHANNELS_PER_AREA && (forall k :: 0 <= k < |urls| ==> UrlOk(urls[k], isRtsp))
                              && |doc.streams| == |doc.areas| * CHANNELS_PER_AREA && |doc.areas| < MAXIMUM_ZONE_COUNT
    ensures result.Some? ==> exists a :: IsAddition(doc, name, urls, a) && result.value == Extended(doc, a)
  {
    if Trim(name) == "" || |urls| != CHANNELS_PER_AREA {
      return None;
    }
    for k := 0 to |urls|
      invariant forall j :: 0 <= j < k ==> UrlOk(urls[j], isRtsp)
    {
      if !UrlOk(urls[k], isRtsp) {
        return None;
      }
    }
    if |doc.streams| != |doc.areas| * CHANNELS_PER_AREA || |doc.areas| >= MAXIMUM_ZONE_COUNT {
      return None;
    }
    var areaId := FreeAreaId(doc.areas);
    var streams := AppendStreams(doc.streams, urls);
    var streamIds := seq(CHANNELS_PER_AREA, k requires 0 <= k < CHANNELS_PER_AREA => streams[k].cameraId);
    var a :=
      Addition(streams, AreaDoc(areaId, Trim(name), streamIds), if doc.zones == [] then []
               else [NextZoneBox(doc.zones)]);
    assert IsAddition(doc, name, urls, a);
    return Some(Extended(doc, a));
  }

  // ---------- editing ----------

  function FirstRaw(streams: seq<StreamDoc>, id: string): (i: nat)
    ensures i <= |streams| && (i < |streams| ==> streams[i].cameraId == id)
    ensures forall k :: 0 <= k < i ==> streams[k].cameraId != id
  {
    if streams == [] || streams[0].cameraId == id then 0 else 1 + FirstRaw(streams[1..], id)
  }

  /** The first `n` slots of an area point to new addresses; `None` if a camera is not found. */
  function Repointed(streams: seq<StreamDoc>, ids: seq<string>, urls: seq<string>, n: nat): (r: Option<seq<StreamDoc>>)
    requires n <= |ids| && n <= |urls|
  {
    if n == 0 then Some(streams)
    else match Repointed(streams, ids, urls, n - 1)
      case None => None
      case Some(before) =>
        var i := FirstRaw(before, ids[n - 1]);
        if i == |before| then None else Some(before[i := before[i].(url := urls[n - 1])])
  }

  /** The writer finds an area's cameras exactly if each slot names one to the letter; the reader
      is more generous and ignores blanks. */
  lemma {:induction false} RepointedExactly(streams: seq<StreamDoc>, ids: seq<string>, urls: seq<string>, n: nat)
    requires n <= |ids| && n <= |urls|
    ensures var r := Repointed(streams, ids, urls, n);
            && (r.Some? <==> forall k :: 0 <= k < n ==> ids[k] in RawCameraIds(streams))
            && (r.Some? ==> |r.value| == |streams| && forall i :: 0 <= i < |streams| ==>
                  r.value[i].cameraId == streams[i].cameraId)
  {
    if n > 0 { RepointedExactly(streams, ids, urls, n - 1); }
  }

  lemma NotAmong(streams: seq<StreamDoc>, edited: seq<StreamDoc>, id: string)
    requires |edited| == |streams| && forall i :: 0 <= i < |streams| ==> edited[i].cameraId == streams[i].cameraId
    requires forall i :: 0 <= i < |edited| ==> edited[i].cameraId != id
    ensures id !in RawCameraIds(streams)
  {}

  ghost predicate Editable(doc: Doc, areaIndex: int, name: string, urls: seq<string>, isRtsp: UrlTest) {
    && Trim(name) != "" && |urls| == CHANNELS_PER_AREA && (forall k :: 0 <= k < |urls| ==> UrlOk(urls[k], isRtsp))
    && |doc.streams| == |doc.areas| * CHANNELS_PER_AREA && 0 <= areaIndex < |doc.areas|
    && |doc.areas[areaIndex].streamIds| == CHANNELS_PER_AREA
    && forall k :: 0 <= k < CHANNELS_PER_AREA ==> doc.areas[areaIndex].streamIds[k] in RawCameraIds(doc.streams)
  }

  /** The search for a slot's camera. */
  method FindStream(streams: seq<StreamDoc>, id: string) returns (i: nat)
    ensures i == FirstRaw(streams, id)
  {
    i := 0;
    while i < |streams| && streams[i].cameraId != id
      invariant i <= |streams| && forall k :: 0 <= k < i ==> streams[k].cameraId != id
    {
      i := i + 1;
    }
    FirstIsUnique(streams, id, i);
  }

  lemma FirstIsUnique(streams: seq<StreamDoc>, id: string, i: nat)
    requires i <= |streams| && (i < |streams| ==> streams[i].cameraId == id)
    requires forall k :: 0 <= k < i ==> streams[k].cameraId != id
    ensures FirstRaw(streams, id) == i
  {}

  /** `updateArea` on the contents of the file. */
  method UpdateArea(doc: Doc, areaIndex: int, name: string, urls: seq<string>, isRtsp: UrlTest)
    returns (result: Option<Doc>)
    ensures result.Some? <==> Editable(doc, areaIndex, name, urls, isRtsp)
    ensures result.Some? ==>
      Repointed(doc.streams, doc.areas[areaIndex].streamIds, urls, CHANNELS_PER_AREA).Some?
      && result.value == Edited(doc, areaIndex, name, urls)
  {
    if Trim(name) == "" || |urls| != CHANNELS_PER_AREA {
      return None;
    }
    for k := 0 to |urls|
      invariant forall j :: 0 <= j < k ==> UrlOk(urls[j], isRtsp)
    {
      if !UrlOk(urls[k], isRtsp) {
        return None;
      }
    }
    if |doc.streams| != |doc.areas| * CHANNELS_PER_AREA || areaIndex < 0 || areaIndex >= |doc.areas| {
      return None;
    }
    var area := doc.areas[areaIndex];
    if |area.streamIds| != CHANNELS_PER_AREA {
      return None;
    }
    var streams := doc.streams;
    for slot := 0 to CHANNELS_PER_AREA
      invariant Repointed(doc.streams, area.streamIds, urls, slot) == Some(streams)
    {
      var i := FindStream(streams, area.streamIds[slot]);
      RepointedExactly(doc.streams, area.streamIds, urls, slot);
      if i == |streams| {
        NotAmong(doc.streams, streams, area.streamIds[slot]);
        return None;
      }
      streams := streams[i := streams[i].(url := urls[slot])];
    }
    RepointedExactly(doc.streams, area.streamIds, urls, CHANNELS_PER_AREA);
    return Some(doc.(streams := streams, areas := doc.areas[areaIndex := area.(name := Trim(name))]));
  }

  function Edited(doc: Doc, areaIndex: int, name: string, urls: seq<string>): Doc
    requires 0 <= areaIndex < |doc.areas| && |doc.areas[areaIndex].streamIds| == CHANNELS_PER_AREA == |urls|
    requires Repointed(doc.streams, doc.areas[areaIndex].streamIds, urls, CHANNELS_PER_AREA).Some?
  {
    doc.(streams := Repointed(doc.streams, doc.areas[areaIndex].streamIds, urls, CHANNELS_PER_AREA).value,
         areas := doc.areas[areaIndex := doc.areas[areaIndex].(name := Trim(name))])
  }
}
