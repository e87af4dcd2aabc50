/** Acceptance of the video part of the client's configuration file (ApplicationConfigLoader): which
    streams, areas and zone boxes are taken, and what they become. The file is given as well-typed
    JSON values; whether a string is an RTSP URL is a parameter. */
module ConfigLoader {
  import opened Domain

  const MAXIMUM_ZONE_COUNT := 6
  const CHANNELS_PER_AREA := 4
  const COORDINATE_LIMIT := 1000000000.0

  datatype StreamDoc = StreamDoc(cameraId: string, name: string, url: string, channelIndex: int, enabled: bool)
  datatype AreaDoc = AreaDoc(areaId: string, name: string, streamIds: seq<string>)
  datatype Box = Box(minX: real, minY: real, maxX: real, maxY: real)
  datatype Doc = Doc(streams: seq<StreamDoc>, areas: seq<AreaDoc>, initialAreaId: Option<string>, zones: seq<Box>)

  datatype Area = Area(areaId: string, name: string, channelIndexes: seq<int>)
  datatype Config = Config(streams: seq<StreamDoc>, areas: seq<Area>, initialAreaIndex: int, zones: seq<Option<Box>>)

  type UrlTest = string -> bool

  // ---------- strings ----------

  predicate IsSpace(c: char) { c == ' ' || c == '\t' || c == '\n' || c == '\r' }

  function TrimLeft(s: string): string {
    if s != [] && IsSpace(s[0]) then TrimLeft(s[1..]) else s
  }

  function TrimRight(s: string): string {
    if s != [] && IsSpace(s[|s| - 1]) then TrimRight(s[..|s| - 1]) else s
  }

  function Trim(s: string): string { TrimRight(TrimLeft(s)) }

  // ---------- what is accepted ----------

  predicate StreamOk(s: StreamDoc, channelCount: int, isRtsp: UrlTest) {
    && Trim(s.cameraId) != "" && Trim(s.name) != "" && Trim(s.url) != ""
    && 0 <= s.channelIndex < channelCount && isRtsp(Trim(s.url))
  }

  ghost predicate StreamsDiffer(streams: seq<StreamDoc>) {
    forall i, j :: 0 <= i < j < |streams| ==>
      Trim(streams[i].cameraId) != Trim(streams[j].cameraId) && streams[i].channelIndex != streams[j].channelIndex
  }

  predicate OnChannel(streams: seq<StreamDoc>, i: int, channel: int) {
    0 <= i < |streams| && streams[i].channelIndex == channel
  }

  ghost predicate HasChannel(streams: seq<StreamDoc>, channel: int) {
    exists i :: OnChannel(streams, i, channel)
  }

  ghost predicate ChannelsCovered(streams: seq<StreamDoc>, channelCount: int) {
    forall channel :: 0 <= channel < channelCount ==> HasChannel(streams, channel)
  }

  ghost predicate StreamsAccepted(streams: seq<StreamDoc>, channelCount: int, isRtsp: UrlTest) {
    && |streams| == channelCount
    && (forall i :: 0 <= i < |streams| ==> StreamOk(streams[i], channelCount, isRtsp))
    && StreamsDiffer(streams) && ChannelsCovered(streams, channelCount)
  }

  predicate IsCamera(streams: seq<StreamDoc>, i: int, id: string, channel: int) {
    0 <= i < |streams| && Trim(streams[i].cameraId) == id && streams[i].channelIndex == channel
  }

  /** Slot `slot` of area `a` names the camera of channel 4 a + slot. */
  ghost predicate SlotOk(streams: seq<StreamDoc>, id: string, channel: int) {
    Trim(id) != "" && exists i :: IsCamera(streams, i, Trim(id), channel)
  }

  predicate AreaNamed(area: AreaDoc) {
    Trim(area.areaId) != "" && Trim(area.name) != "" && |area.streamIds| == CHANNELS_PER_AREA
  }

  ghost predicate AreaOk(streams: seq<StreamDoc>, area: AreaDoc, a: int) {
    AreaNamed(area)
    && forall slot :: 0 <= slot < |area.streamIds| ==>
      SlotOk(streams, area.streamIds[slot], CHANNELS_PER_AREA * a + slot)
  }

  ghost predicate AreaIdsDiffer(areas: seq<AreaDoc>) {
    forall i, j :: 0 <= i < j < |areas| ==> Trim(areas[i].areaId) != Trim(areas[j].areaId)
  }

  predicate IsArea(areas: seq<AreaDoc>, i: int, id: string) {
    0 <= i < |areas| && Trim(areas[i].areaId) == id
  }

  /** An absent initial area means the first one; without areas it is not looked at. */
  ghost predicate InitialOk(areas: seq<AreaDoc>, initialAreaId: Option<string>) {
    areas != [] && initialAreaId.Some? ==>
      Trim(initialAreaId.value) != "" && exists i :: IsArea(areas, i, Trim(initialAreaId.value))
  }

  ghost predicate AreasAccepted(streams: seq<StreamDoc>, areas: seq<AreaDoc>, initialAreaId: Option<string>) {
    && (forall a :: 0 <= a < |areas| ==> AreaOk(streams, areas[a], a))
    && AreaIdsDiffer(areas) && InitialOk(areas, initialAreaId)
  }

  predicate WithinLimit(x: real) { -COORDINATE_LIMIT <= x <= COORDINATE_LIMIT }

  predicate BoxOk(b: Box) {
    && WithinLimit(b.minX) && WithinLimit(b.minY) && WithinLimit(b.maxX) && WithinLimit(b.maxY)
    && b.minX < b.maxX && b.minY < b.maxY
  }

  /** No zone boxes at all, or one for each area. */
  predicate ZonesOk(zones: seq<Box>, areaCount: nat) {
    && |zones| <= MAXIMUM_ZONE_COUNT && (zones == [] || |zones| == areaCount)
    && forall i :: 0 <= i < |zones| ==> BoxOk(zones[i])
  }

  ghost predicate Accepted(doc: Doc, isRtsp: UrlTest) {
    && |doc.areas| <= MAXIMUM_ZONE_COUNT
    && StreamsAccepted(doc.streams, |doc.areas| * CHANNELS_PER_AREA, isRtsp)
    && AreasAccepted(doc.streams, doc.areas, doc.initialAreaId)
    && ZonesOk(doc.zones, |doc.areas|)
  }

  // ---------- the parsers ----------

  function ReadStream(s: StreamDoc): StreamDoc {
    s.(cameraId := Trim(s.cameraId), name := Trim(s.name), url := Trim(s.url))
  }

  /** Streams as read, in the order of their channels. */
  ghost predicate InChannelOrder(streams: seq<StreamDoc>, parsed: seq<StreamDoc>) {
    && |parsed| == |streams|
    && forall channel :: 0 <= channel < |parsed| ==>
         parsed[channel].channelIndex == channel
         && exists i :: OnChannel(streams, i, channel) && parsed[channel] == ReadStream(streams[i])
  }

  function ChannelsOf(streams: seq<StreamDoc>): set<int> {
    set k | 0 <= k < |streams| :: streams[k].channelIndex
  }

  function CameraIdsOf(streams: seq<StreamDoc>): set<string> {
    set k | 0 <= k < |streams| :: Trim(streams[k].cameraId)
  }

  /** The loop over the streams, with the sets of ids and channels seen so far. */
  method CheckStreams(streams: seq<StreamDoc>, channelCount: int, isRtsp: UrlTest)
    returns (ok: bool, channels: set<int>)
    ensures ok
       <==> (forall i :: 0 <= i < |streams| ==> StreamOk(streams[i], channelCount, isRtsp)) && StreamsDiffer(streams)
    ensures ok ==> channels == ChannelsOf(streams)
  {
    var cameraIds: set<string> := {};
    channels := {};
    for i := 0 to |streams|
      invariant forall k :: 0 <= k < i ==> StreamOk(streams[k], channelCount, isRtsp)
      invariant StreamsDiffer(streams[..i])
      invariant cameraIds == CameraIdsOf(streams[..i]) && channels == ChannelsOf(streams[..i])
    {
      var s := streams[i];
      if !StreamOk(s, channelCount, isRtsp) {
        return false, channels;
      }
      if Trim(s.cameraId) in cameraIds || s.channelIndex in channels {
        SeenBefore(streams, i);
        return false, channels;
      }
      OneMoreStream(streams, i);
      cameraIds, channels := cameraIds + {Trim(s.cameraId)}, channels + {s.channelIndex};
    }
    assert streams[..|streams|] == streams;
    ok := true;
  }

  lemma SeenBefore(streams: seq<StreamDoc>, i: nat)
    requires i < |streams|
    requires Trim(streams[i].cameraId) in CameraIdsOf(streams[..i])
             || streams[i].channelIndex in ChannelsOf(streams[..i])
    ensures !StreamsDiffer(streams)
  {
    var head := streams[..i];
    var k :| 0 <= k < i
        && (Trim(head[k].cameraId) == Trim(streams[i].cameraId) || head[k].channelIndex == streams[i].channelIndex);
    assert head[k] == streams[k];
  }

  lemma OneMoreStream(streams: seq<StreamDoc>, i: nat)
    requires i < |streams| && StreamsDiffer(streams[..i])
    ensures CameraIdsOf(streams[..i + 1]) == CameraIdsOf(streams[..i]) + {Trim(streams[i].cameraId)}
    ensures ChannelsOf(streams[..i + 1]) == ChannelsOf(streams[..i]) + {streams[i].channelIndex}
    ensures Trim(streams[i].cameraId) !in CameraIdsOf(streams[..i])
            && streams[i].channelIndex !in ChannelsOf(streams[..i])
        ==> StreamsDiffer(streams[..i + 1])
  {
    var head, more := streams[..i], streams[..i + 1];
    assert more == head + [streams[i]];
    forall id | id in CameraIdsOf(more) ensures id in CameraIdsOf(head) + {Trim(streams[i].cameraId)} {
      var k :| 0 <= k < |more| && Trim(more[k].cameraId) == id;
      assert k < i ==> head[k] == more[k];
    }
    forall id | id in CameraIdsOf(head) ensures id in CameraIdsOf(more) {
      var k :| 0 <= k < |head| && Trim(head[k].cameraId) == id;
      assert head[k] == more[k];
    }
    forall c | c in ChannelsOf(more) ensures c in ChannelsOf(head) + {streams[i].channelIndex} {
      var k :| 0 <= k < |more| && more[k].channelIndex == c;
      assert k < i ==> head[k] == more[k];
    }
    forall c | c in ChannelsOf(head) ensures c in ChannelsOf(more) {
      var k :| 0 <= k < |head| && head[k].channelIndex == c;
      assert head[k] == more[k];
    }
    assert more[i] == streams[i];
  }

  /** The loop that looks for a gap in the channels. */
  method CheckChannels(streams: seq<StreamDoc>, channelCount: nat, channels: set<int>) returns (ok: bool)
    requires channels == ChannelsOf(streams)
    ensures ok <==> ChannelsCovered(streams, channelCount)
  {
    ok := true;
    for channel := 0 to channelCount
      invariant ChannelsCovered(streams, channel)
    {
      ChannelKnown(streams, channel);
      if channel !in channels {
        return false;
      }
    }
  }

  lemma ChannelKnown(streams: seq<StreamDoc>, channel: int)
    ensures channel in ChannelsOf(streams) <==> HasChannel(streams, channel)
  {
    if channel in ChannelsOf(streams) {
      var k :| 0 <= k < |streams| && streams[k].channelIndex == channel;
      assert OnChannel(streams, k, channel);
    }
  }

  method ParseStreams(streams: seq<StreamDoc>, channelCount: nat, isRtsp: UrlTest)
    returns (parsed: Option<seq<StreamDoc>>)
    ensures parsed.Some? <==> StreamsAccepted(streams, channelCount, isRtsp)
    ensures parsed.Some? ==> InChannelOrder(streams, parsed.value)
  {
    if |streams| != channelCount {
      return None;
    }
    var ok, channels := CheckStreams(streams, channelCount, isRtsp);
    if !ok {
      return None;
    }
    var contiguous := CheckChannels(streams, channelCount, channels);
    if !contiguous {
      return None;
    }
    var sorted := SortByChannel(streams);
    return Some(sorted);
  }

  /** Stands for `std::sort` on distinct channels that cover 0 to n - 1. */
  method SortByChannel(streams: seq<StreamDoc>) returns (sorted: seq<StreamDoc>)
    requires ChannelsCovered(streams, |streams|)
    ensures InChannelOrder(streams, sorted)
  {
    sorted := [];
    for channel := 0 to |streams|
      invariant |sorted| == channel
      invariant forall c :: 0 <= c < channel ==>
        sorted[c].channelIndex == c && exists i :: OnChannel(streams, i, c) && sorted[c] == ReadStream(streams[i])
    {
      var i := 0;
      while i < |streams| && streams[i].channelIndex != channel
        invariant 0 <= i <= |streams| && forall k :: 0 <= k < i ==> !OnChannel(streams, k, channel)
      {
        i := i + 1;
      }
      assert HasChannel(streams, channel);
      assert OnChannel(streams, i, channel);
      sorted := sorted + [ReadStream(streams[i])];
    }
  }

  /** The camera with this id, if any. */
  method FindCamera(parsed: seq<StreamDoc>, id: string) returns (channel: Option<int>)
    ensures channel.Some?
        ==> exists i :: 0 <= i < |parsed| && parsed[i].cameraId == id && parsed[i].channelIndex == channel.value
    ensures channel.None? ==> forall i :: 0 <= i < |parsed| ==> parsed[i].cameraId != id
  {
    for i := 0 to |parsed|
      invariant forall k :: 0 <= k < i ==> parsed[k].cameraId != id
    {
      if parsed[i].cameraId == id {
        return Some(parsed[i].channelIndex);
      }
    }
    return None;
  }

  /** A camera id is found on a channel exactly when a stream of the file has both. */
  lemma CameraIsUnique(streams: seq<StreamDoc>, parsed: seq<StreamDoc>, id: string, j: int, channel: int)
    requires StreamsDiffer(streams) && InChannelOrder(streams, parsed) && 0 <= j < |parsed| && parsed[j].cameraId == id
    ensures (exists i :: IsCamera(streams, i, id, channel)) <==> parsed[j].channelIndex == channel
  {
    var k :| OnChannel(streams, k, j) && parsed[j] == ReadStream(streams[k]);
    assert IsCamera(streams, k, id, parsed[j].channelIndex);
    if i :| IsCamera(streams, i, id, channel) {
      assert i == k;
    }
  }

  lemma UnknownCamera(streams: seq<StreamDoc>, parsed: seq<StreamDoc>, id: string, channel: int)
    requires InChannelOrder(streams, parsed)
    requires forall i :: 0 <= i < |streams| ==> 0 <= streams[i].channelIndex < |streams|
    requires StreamsDiffer(streams) && forall j :: 0 <= j < |parsed| ==> parsed[j].cameraId != id
    ensures !exists i :: IsCamera(streams, i, id, channel)
  {
    forall i ensures !IsCamera(streams, i, id, channel) {
      if 0 <= i < |streams| {
        var c := streams[i].channelIndex;
        var k :| OnChannel(streams, k, c) && parsed[c] == ReadStream(streams[k]);
        assert k == i;
      }
    }
  }

  method CheckSlot(streams: seq<StreamDoc>, parsed: seq<StreamDoc>, streamId: string, expected: int) returns (ok: bool)
    requires StreamsDiffer(streams) && InChannelOrder(streams, parsed)
    requires forall i :: 0 <= i < |streams| ==> 0 <= streams[i].channelIndex < |streams|
    ensures ok <==> SlotOk(streams, streamId, expected)
  {
    var id := Trim(streamId);
    if id == "" {
      return false;
    }
    var channel := FindCamera(parsed, id);
    if channel.None? {
      UnknownCamera(streams, parsed, id, expected);
      return false;
    }
    ghost var j :| 0 <= j < |parsed| && parsed[j].cameraId == id && parsed[j].channelIndex == channel.value;
    CameraIsUnique(streams, parsed, id, j, expected);
    return channel.value == expected;
  }

  /** The loop over one area's slots. */
  method ParseSlots(streams: seq<StreamDoc>, parsed: seq<StreamDoc>, area: AreaDoc, a: int)
    returns (channels: Option<seq<int>>)
    requires AreaNamed(area) && StreamsDiffer(streams) && InChannelOrder(streams, parsed)
    requires forall i :: 0 <= i < |streams| ==> 0 <= streams[i].channelIndex < |streams|
    ensures channels.Some? <==> AreaOk(streams, area, a)
    ensures channels.Some? ==> ShowsChannels(channels.value, a)
  {
    var indexes: seq<int> := [];
    for slot := 0 to |area.streamIds|
      invariant |indexes| == slot
      invariant forall k :: 0 <= k < slot ==> indexes[k] == CHANNELS_PER_AREA * a + k
      invariant forall k :: 0 <= k < slot ==> SlotOk(streams, area.streamIds[k], CHANNELS_PER_AREA * a + k)
    {
      var expected := CHANNELS_PER_AREA * a + slot;
      var ok := CheckSlot(streams, parsed, area.streamIds[slot], expected);
      if !ok {
        return None;
      }
      indexes := indexes + [expected];
    }
    return Some(indexes);
  }

  predicate ShowsChannels(channels: seq<int>, a: int) {
    && |channels| == CHANNELS_PER_AREA
    && forall slot :: 0 <= slot < CHANNELS_PER_AREA ==> channels[slot] == CHANNELS_PER_AREA * a + slot
  }

  ghost predicate AreasAre(areas: seq<AreaDoc>, parsed: seq<Area>) {
    && |parsed| == |areas|
    && forall a :: 0 <= a < |parsed| ==>
         && parsed[a].areaId == Trim(areas[a].areaId) && parsed[a].name == Trim(areas[a].name)
         && ShowsChannels(parsed[a].channelIndexes, a)
  }

  lemma OneMoreArea(areas: seq<AreaDoc>, a: nat, list: seq<Area>, channels: seq<int>)
    requires a < |areas| && AreasAre(areas[..a], list) && ShowsChannels(channels, a)
    ensures AreasAre(areas[..a + 1], list + [Area(Trim(areas[a].areaId), Trim(areas[a].name), channels)])
    ensures AreaIdsDiffer(areas[..a]) && (forall k :: 0 <= k < a ==> Trim(areas[k].areaId) != Trim(areas[a].areaId)) ==>
              AreaIdsDiffer(areas[..a + 1])
  {
    var head, more := areas[..a], areas[..a + 1];
    assert forall k :: 0 <= k < a ==> more[k] == head[k] == areas[k];
  }

  /** The loop over the areas. */
  method ParseAreas(streams: seq<StreamDoc>, parsed: seq<StreamDoc>, areas: seq<AreaDoc>)
    returns (result: Option<seq<Area>>)
    requires StreamsDiffer(streams) && InChannelOrder(streams, parsed)
    requires forall i :: 0 <= i < |streams| ==> 0 <= streams[i].channelIndex < |streams|
    ensures result.Some? <==> (forall a :: 0 <= a < |areas| ==> AreaOk(streams, areas[a], a)) && AreaIdsDiffer(areas)
    ensures result.Some? ==> AreasAre(areas, result.value)
  {
    var areaIds: set<string>, list: seq<Area> := {}, [];
    for a := 0 to |areas|
      invariant forall k :: 0 <= k < a ==> AreaOk(streams, areas[k], k)
      invariant AreaIdsDiffer(areas[..a]) && AreasAre(areas[..a], list)
      invariant areaIds == set k | 0 <= k < a :: Trim(areas[k].areaId)
    {
      var area := areas[a];
      if Trim(area.areaId) == "" || Trim(area.name) == "" || Trim(area.areaId) in areaIds
         || |area.streamIds| != CHANNELS_PER_AREA {
        return None;
      }
      var channels := ParseSlots(streams, parsed, area, a);
      if channels.None? {
        return None;
      }
      OneMoreArea(areas, a, list, channels.value);
      areaIds := areaIds + {Trim(area.areaId)};
      list := list + [Area(Trim(area.areaId), Trim(area.name), channels.value)];
    }
    assert areas[..|areas|] == areas;
    return Some(list);
  }

  /** The first area with the id; without an id the first area, without areas none. */
  ghost predicate InitialIs(areas: seq<AreaDoc>, initialAreaId: Option<string>, index: int) {
    if areas == [] then index == -1
    else if initialAreaId.None? then index == 0
    else IsArea(areas, index, Trim(initialAreaId.value)) && forall k :: 0 <= k < index ==>
      !IsArea(areas, k, Trim(initialAreaId.value))
  }

  method FindInitial(areas: seq<AreaDoc>, initialAreaId: Option<string>) returns (index: Option<int>)
    ensures index.Some? <==> InitialOk(areas, initialAreaId)
    ensures index.Some? ==> InitialIs(areas, initialAreaId, index.value)
  {
    if areas == [] {
      return Some(-1);
    }
    if initialAreaId.None? {
      return Some(0);
    }
    var id := Trim(initialAreaId.value);
    if id == "" {
      return None;
    }
    for a := 0 to |areas|
      invariant forall k :: 0 <= k < a ==> !IsArea(areas, k, id)
    {
      if Trim(areas[a].areaId) == id {
        assert IsArea(areas, a, id);
        return Some(a);
      }
    }
    return None;
  }

  method ReadZones(zones: seq<Box>, areaCount: nat) returns (ok: bool)
    ensures ok <==> ZonesOk(zones, areaCount)
  {
    if |zones| > MAXIMUM_ZONE_COUNT || (zones != [] && |zones| != areaCount) {
      return false;
    }
    for i := 0 to |zones|
      invariant forall k :: 0 <= k < i ==> BoxOk(zones[k])
    {
      if !BoxOk(zones[i]) {
        return false;
      }
    }
    return true;
  }

  /** The box of a zone, or none when the bounds are divided evenly. */
  function ZoneAt(doc: Doc, i: nat): Option<Box> { if i < |doc.zones| then Some(doc.zones[i]) else None }

  ghost predicate LoadedAs(doc: Doc, c: Config) {
    && InChannelOrder(doc.streams, c.streams) && AreasAre(doc.areas, c.areas)
    && InitialIs(doc.areas, doc.initialAreaId, c.initialAreaIndex)
    && |c.zones| == |doc.areas|
    && forall i :: 0 <= i < |c.zones| ==> c.zones[i] == ZoneAt(doc, i)
  }

  /** Accepts exactly the acceptable files. Of an accepted one stream i is on channel i, and slot
      s of area a shows channel 4 a + s. */
  method Load(doc: Doc, isRtsp: UrlTest) returns (config: Option<Config>)
    ensures config.Some? <==> Accepted(doc, isRtsp)
    ensures config.Some? ==> LoadedAs(doc, config.value)
  {
    if |doc.areas| > MAXIMUM_ZONE_COUNT {
      return None;
    }
    var streams := ParseStreams(doc.streams, |doc.areas| * CHANNELS_PER_AREA, isRtsp);
    if streams.None? {
      return None;
    }
    var areas := ParseAreas(doc.streams, streams.value, doc.areas);
    if areas.None? {
      return None;
    }
    var initial := FindInitial(doc.areas, doc.initialAreaId);
    if initial.None? {
      return None;
    }
    var zonesOk := ReadZones(doc.zones, |doc.areas|);
    if !zonesOk {
      return None;
    }
    var zones := seq(|doc.areas|, i requires 0 <= i < |doc.areas| => ZoneAt(doc, i));
    return Some(Config(streams.value, areas.value, initial.value, zones));
  }
}
