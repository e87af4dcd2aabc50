/** Routing to the blur and risk paths (ParentBasedRouter), mapping of blur boxes to the screen
    (AffineImageCoordinateMapper) and their composition for one packet (Pipeline). */
module BlurRouting {
  import opened Domain
  import S = ContainmentSanitizer

  // ---------- router ----------

  predicate IsHeadFor(h: DetectedObject, o: DetectedObject) {
    h.cls == Head && !h.isFace && h.parentId == o.parentId
  }

  /** A Face of somebody whose whole Head is reported too. */
  predicate HasHead(o: DetectedObject, frame: seq<DetectedObject>) {
    o.isFace && o.parentId.Some? && exists i :: 0 <= i < |frame| && IsHeadFor(frame[i], o)
  }

  predicate Private(o: DetectedObject) {
    o.parentId.Some? || o.cls.IsBlur()
  }

  ghost function ToBlur(frame: seq<DetectedObject>): DetectedObject -> bool {
    o => !HasHead(o, frame) && Private(o)
  }

  ghost function ToRisk(frame: seq<DetectedObject>): DetectedObject -> bool {
    o => !Private(o) && o.cls.IsRisk()
  }

  class RouteResult {
    var blur: seq<DetectedObject>
    var risk: seq<DetectedObject>

    constructor () {
      blur, risk := [], [];
    }
  }

  /** The search for a Head with the same parent. */
  method FindHead(o: DetectedObject, frame: seq<DetectedObject>) returns (found: bool)
    ensures found <==> HasHead(o, frame)
  {
    if !o.isFace || o.parentId.None? {
      return false;
    }
    for i := 0 to |frame|
      invariant forall k :: 0 <= k < i ==> !IsHeadFor(frame[k], o)
    {
      if !frame[i].isFace && frame[i].cls == Head && frame[i].parentId == o.parentId {
        return true;
      }
    }
    return false;
  }

  /** Clears and refills the caller's two lists. */
  method Route(frame: seq<DetectedObject>, outResult: RouteResult)
    modifies outResult
    ensures outResult.blur == Filter(frame, ToBlur(frame))
    ensures outResult.risk == Filter(frame, ToRisk(frame))
  {
    outResult.blur, outResult.risk := [], [];
    for n := 0 to |frame|
      invariant outResult.blur == Filter(frame[..n], ToBlur(frame))
      invariant outResult.risk == Filter(frame[..n], ToRisk(frame))
    {
      var o := frame[n];
      assert frame[..n + 1][..n] == frame[..n];
      var covered := FindHead(o, frame);
      if covered {
        continue;
      }
      if o.parentId.Some? || o.cls.IsBlur() {
        outResult.blur := outResult.blur + [o];
      } else if o.cls.IsRisk() {
        outResult.risk := outResult.risk + [o];
      }
    }
    assert frame[..|frame|] == frame;
  }

  /** Nothing private is lost: it is blurred, or it is a Face whose parent's Head is blurred. */
  lemma PrivateIsBlurred(frame: seq<DetectedObject>, o: DetectedObject)
    requires o in frame && Private(o)
    ensures var blur := Filter(frame, ToBlur(frame));
            o in blur
            || (o.isFace && o.parentId.Some?
                && exists h :: h in blur && h.cls == Head && !h.isFace && h.parentId == o.parentId)
  {
    if HasHead(o, frame) {
      var i :| 0 <= i < |frame| && !frame[i].isFace && frame[i].cls == Head && frame[i].parentId == o.parentId;
      FilterKeeps(frame, ToBlur(frame), frame[i]);
    } else {
      FilterKeeps(frame, ToBlur(frame), o);
    }
  }

  /** No object goes both ways, and nothing private goes to the risk path. */
  lemma RiskIsPublic(frame: seq<DetectedObject>, o: DetectedObject)
    ensures o in Filter(frame, ToRisk(frame)) ==> o.parentId.None? && (o.cls == Human || o.cls == Vehicle)
    ensures o in Filter(frame, ToRisk(frame)) ==> o !in Filter(frame, ToBlur(frame))
  {}

  // ---------- mapper ----------

  datatype Affine = Affine(scaleX: real, scaleY: real, offsetX: real, offsetY: real, boxScale: real) {
    predicate Valid() { scaleX > 0.0 && scaleY > 0.0 && boxScale >= 1.0 }
  }

  /** Metadata coordinates to screen coordinates. */
  function Place(box: NormBox, a: Affine): NormBox {
    NormBox(box.l * a.scaleX + a.offsetX, box.t * a.scaleY + a.offsetY,
            box.r * a.scaleX + a.offsetX, box.b * a.scaleY + a.offsetY)
  }

  function ExpandAroundCenter(box: NormBox, scale: real): NormBox {
    var cx, cy := (box.l + box.r) * 0.5, (box.t + box.b) * 0.5;
    var halfW, halfH := (box.r - box.l) * 0.5 * scale, (box.b - box.t) * 0.5 * scale;
    NormBox(cx - halfW, cy - halfH, cx + halfW, cy + halfH)
  }

  predicate IsVisible(box: NormBox) {
    box.r > 0.0 && box.l < 1.0 && box.b > 0.0 && box.t < 1.0
  }

  function Clamp(x: real): (c: real)
    ensures 0.0 <= c <= 1.0
  {
    if x < 0.0 then 0.0 else if 1.0 < x then 1.0 else x
  }

  function ClampToOutput(box: NormBox): NormBox {
    NormBox(Clamp(box.l), Clamp(box.t), Clamp(box.r), Clamp(box.b))
  }

  /** What the mapper makes of one box: nothing when it is off-screen or empty. */
  function MapBox(box: NormBox, a: Affine): Option<NormBox> {
    var expanded := ExpandAroundCenter(Place(box, a), a.boxScale);
    var clamped := ClampToOutput(expanded);
    if !IsVisible(expanded) || clamped.r <= clamped.l || clamped.b <= clamped.t then None else Some(clamped)
  }

  ghost function Mapped(objects: seq<DetectedObject>, a: Affine): (r: seq<DetectedObject>)
    ensures |r| <= |objects|
  {
    if objects == [] then []
    else
      var last := objects[|objects| - 1];
      Mapped(objects[..|objects| - 1], a)
      + match MapBox(last.box, a) case None => [] case Some(box) => [last.(box := box)]
  }

  class Mapper {
    const a: Affine

    constructor (a: Affine)
      requires a.Valid()
      ensures this.a == a
    {
      this.a := a;
    }

    /** Non-positive scales and shrinking factors are refused. */
    static method Make(a: Affine) returns (m: Mapper?)
      ensures m != null <==> a.Valid()
      ensures m != null ==> fresh(m) && m.a == a
    {
      if a.scaleX <= 0.0 || a.scaleY <= 0.0 || a.boxScale < 1.0 {
        return null;
      }
      m := new Mapper(a);
    }

    /** Maps and compacts in place; the first `size` objects are the result. */
    method Map(objects: array<DetectedObject>) returns (size: nat)
      modifies objects
      ensures size <= objects.Length
      ensures objects[..size] == Mapped(old(objects[..]), a)
    {
      ghost var input, kept := objects[..], [];
      size := 0;
      for i := 0 to objects.Length
        invariant size == |kept| && kept == Mapped(input[..i], a) && Compacting(objects[..], kept, input, i)
      {
        assert input[..i + 1][..i] == input[..i];
        ghost var now := objects[..];
        var mapped := MapBox(objects[i].box, a);
        CompactOne(now, kept, input, i, if mapped.Some? then input[i].(box := mapped.value) else input[i]);
        if mapped.None? {
          continue;
        }
        Put(objects, i, objects[i].(box := mapped.value));
        if size != i {
          Put(objects, size, objects[i]);
        }
        kept := kept + [input[i].(box := mapped.value)];
        size := size + 1;
      }
      assert input[..objects.Length] == input;
    }
  }

  lemma {:induction false} MappedKeeps(objects: seq<DetectedObject>, a: Affine, o: DetectedObject)
    requires o in objects && MapBox(o.box, a).Some?
    ensures o.(box := MapBox(o.box, a).value) in Mapped(objects, a)
  {
    var n := |objects| - 1;
    if o != objects[n] {
      MappedKeeps(objects[..n], a, o);
    }
  }

  lemma {:induction false} MappedComesFrom(objects: seq<DetectedObject>, a: Affine, p: DetectedObject)
    returns (o: DetectedObject)
    requires p in Mapped(objects, a)
    ensures o in objects && MapBox(o.box, a) == Some(p.box) && p == o.(box := p.box)
  {
    var n := |objects| - 1;
    var last := objects[n];
    if MapBox(last.box, a).Some? && p == last.(box := MapBox(last.box, a).value) {
      o := last;
    } else {
      o := MappedComesFrom(objects[..n], a, p);
    }
  }

  predicate OnScreen(x: real, y: real) { 0.0 <= x <= 1.0 && 0.0 <= y <= 1.0 }

  /** Every visible point of a placed box is covered. */
  ghost predicate CoversVisible(cover: NormBox, box: NormBox, a: Affine) {
    forall x, y :: Covers(Place(box, a), x, y) && OnScreen(x, y) ==> Covers(cover, x, y)
  }

  predicate Reaches(box: NormBox, a: Affine, x: real, y: real) {
    var enlarged := ExpandAroundCenter(Place(box, a), a.boxScale);
    IsVisible(enlarged) && Covers(enlarged, x, y)
  }

  lemma Stretch(lo: real, hi: real, scale: real)
    requires lo < hi && scale >= 1.0
    ensures (lo + hi) * 0.5 - (hi - lo) * 0.5 * scale <= lo
    ensures hi <= (lo + hi) * 0.5 + (hi - lo) * 0.5 * scale
  {
    Nonneg((hi - lo) * 0.5, scale - 1.0);
  }

  lemma ExpandedContains(box: NormBox, scale: real)
    requires box.WellFormed() && scale >= 1.0
    ensures Inside(box, ExpandAroundCenter(box, scale)) && ExpandAroundCenter(box, scale).WellFormed()
  {
    Stretch(box.l, box.r, scale);
    Stretch(box.t, box.b, scale);
  }

  lemma Shrink(lo: real, hi: real, scale: real)
    requires lo >= hi && scale >= 1.0
    ensures (lo + hi) * 0.5 - (hi - lo) * 0.5 * scale >= (lo + hi) * 0.5 + (hi - lo) * 0.5 * scale
  {
    Nonneg((lo - hi) * 0.5, scale);
  }

  lemma ScaledOrder(x: real, y: real, scale: real)
    requires scale > 0.0
    ensures x < y <==> x * scale < y * scale
  {
    if x < y {
      assert (y - x) * scale > 0.0;
    } else {
      assert (x - y) * scale >= 0.0;
    }
  }

  lemma PlaceKeepsForm(box: NormBox, a: Affine)
    requires a.Valid()
    ensures Place(box, a).WellFormed() <==> box.WellFormed()
  {
    ScaledOrder(box.l, box.r, a.scaleX);
    ScaledOrder(box.t, box.b, a.scaleY);
  }

  /** A point is in the placed box exactly if the point it comes from is in the box. */
  lemma PlacesPoints(box: NormBox, a: Affine, x: real, y: real)
    requires a.Valid()
    ensures Covers(Place(box, a), x * a.scaleX + a.offsetX, y * a.scaleY + a.offsetY) <==> Covers(box, x, y)
  {
    ScaledOrder(x, box.l, a.scaleX);
    ScaledOrder(box.r, x, a.scaleX);
    ScaledOrder(y, box.t, a.scaleY);
    ScaledOrder(box.b, y, a.scaleY);
  }

  /** Enlarging keeps the centre and multiplies width and height. */
  lemma EnlargesFromCenter(box: NormBox, scale: real)
    ensures var e := ExpandAroundCenter(box, scale);
            && e.l + e.r == box.l + box.r && e.t + e.b == box.t + box.b
            && e.r - e.l == scale * (box.r - box.l) && e.b - e.t == scale * (box.b - box.t)
  {
    assert (box.r - box.l) * 0.5 * scale + (box.r - box.l) * 0.5 * scale == scale * (box.r - box.l);
    assert (box.b - box.t) * 0.5 * scale + (box.b - box.t) * 0.5 * scale == scale * (box.b - box.t);
  }

  lemma ExpandKeepsForm(box: NormBox, scale: real)
    requires scale >= 1.0
    ensures ExpandAroundCenter(box, scale).WellFormed() <==> box.WellFormed()
  {
    if box.l < box.r { Stretch(box.l, box.r, scale); } else { Shrink(box.l, box.r, scale); }
    if box.t < box.b { Stretch(box.t, box.b, scale); } else { Shrink(box.t, box.b, scale); }
  }

  /** Exactly the well-formed boxes whose expanded image overlaps the screen survive. */
  lemma SurvivesExactly(box: NormBox, a: Affine)
    requires a.Valid()
    ensures MapBox(box, a).Some? <==> box.WellFormed() && IsVisible(ExpandAroundCenter(Place(box, a), a.boxScale))
  {
    PlaceKeepsForm(box, a);
    ExpandKeepsForm(Place(box, a), a.boxScale);
  }

  /** A box that overlaps the screen survives as a non-empty box within the screen, and no
      visible point of it is left uncovered. */
  lemma VisiblePartIsCovered(box: NormBox, a: Affine)
    requires a.Valid() && box.WellFormed() && IsVisible(Place(box, a))
    ensures var out := MapBox(box, a);
            && out.Some? && out.value.WellFormed()
            && OnScreen(out.value.l, out.value.t) && OnScreen(out.value.r, out.value.b)
            && CoversVisible(out.value, box, a)
  {
    PlaceKeepsForm(box, a);
    ExpandedContains(Place(box, a), a.boxScale);
    SurvivesExactly(box, a);
  }

  // ---------- pipeline ----------

  datatype RiskEdgePolicy = Keep | DropBottomTruncated | DropAnyEdge

  predicate IsEdgeRejected(o: DetectedObject, policy: RiskEdgePolicy) {
    match policy
    case DropBottomTruncated => o.bottomTruncated
    case DropAnyEdge => o.touchesBorder
    case Keep => false
  }

  datatype Point = Point(x: real, y: real)
  datatype TopViewObject = TopViewObject(id: int, cls: ObjectClass, pos: Point, edge: bool)
  datatype BlurTarget = BlurTarget(id: int, cls: ObjectClass, box: NormBox)

  /** The bottom centre of the box, where the object touches the ground. */
  function GroundPoint(box: NormBox): Point {
    Point((box.l + box.r) * 0.5, box.b)
  }

  function TopView(o: DetectedObject, policy: RiskEdgePolicy, toLocal: Point -> Option<Point>): Option<TopViewObject> {
    if IsEdgeRejected(o, policy) then None
    else match toLocal(GroundPoint(o.box))
      case None => None
      case Some(pos) => Some(TopViewObject(o.id, o.cls, pos, o.touchesBorder))
  }

  ghost function TopViews(risk: seq<DetectedObject>, policy: RiskEdgePolicy,
                          toLocal: Point -> Option<Point>): seq<TopViewObject> {
    if risk == [] then []
    else
      TopViews(risk[..|risk| - 1], policy, toLocal)
      + match TopView(risk[|risk| - 1], policy, toLocal) case None => [] case Some(out) => [out]
  }

  function ToBlurTarget(o: DetectedObject): BlurTarget {
    BlurTarget(o.id, o.cls, o.box)
  }

  class Pipeline {
    const sanitizer: S.Sanitizer
    const mapper: Mapper
    const policy: RiskEdgePolicy
    const toLocal: Point -> Option<Point>
    const routeResult: RouteResult
    var edgeDropCount: nat
    var transformFailCount: nat

    constructor (sanitizer: S.Sanitizer, mapper: Mapper, policy: RiskEdgePolicy, toLocal: Point -> Option<Point>)
      ensures this.sanitizer == sanitizer && this.mapper == mapper && this.policy == policy && this.toLocal == toLocal
      ensures fresh(routeResult) && edgeDropCount == 0 && transformFailCount == 0
    {
      this.sanitizer, this.mapper, this.policy, this.toLocal := sanitizer, mapper, policy, toLocal;
      routeResult := new RouteResult();
      edgeDropCount, transformFailCount := 0, 0;
    }

    /** The loop over the risk path; every object is sent or counted as one of two failures. */
    method RiskPath(risk: seq<DetectedObject>) returns (sent: seq<TopViewObject>)
      modifies `edgeDropCount, `transformFailCount
      ensures sent == TopViews(risk, policy, toLocal)
      ensures |sent| + (edgeDropCount - old(edgeDropCount)) + (transformFailCount - old(transformFailCount)) == |risk|
    {
      sent := [];
      for i := 0 to |risk|
        invariant sent == TopViews(risk[..i], policy, toLocal)
        invariant |sent| + (edgeDropCount - old(edgeDropCount)) + (transformFailCount - old(transformFailCount)) == i
      {
        assert risk[..i + 1][..i] == risk[..i];
        var o := risk[i];
        if IsEdgeRejected(o, policy) {
          edgeDropCount := edgeDropCount + 1;
          continue;
        }
        var worldPoint := toLocal(GroundPoint(o.box));
        if worldPoint.None? {
          transformFailCount := transformFailCount + 1;
          continue;
        }
        sent := sent + [TopViewObject(o.id, o.cls, worldPoint.value, o.touchesBorder)];
      }
      assert risk[..|risk|] == risk;
    }

    method BlurPath(blur: seq<DetectedObject>) returns (targets: seq<BlurTarget>)
      ensures var mapped := Mapped(blur, mapper.a);
              |targets| == |mapped| && forall i :: 0 <= i < |targets| ==> targets[i] == ToBlurTarget(mapped[i])
    {
      var objects := new DetectedObject[|blur|](i requires 0 <= i < |blur| => blur[i]);
      assert objects[..] == blur;
      var size := mapper.Map(objects);
      targets := [];
      for i := 0 to size
        invariant |targets| == i && forall k :: 0 <= k < i ==> targets[k] == ToBlurTarget(objects[k])
      {
        targets := targets + [ToBlurTarget(objects[i])];
      }
    }

    /** One packet: sanitize, route, then both paths. The parsed objects are given. */
    method OnPacket(parsed: array<DetectedObject>) returns (risk: seq<TopViewObject>, blur: seq<BlurTarget>)
      modifies parsed, routeResult, `edgeDropCount, `transformFailCount
      ensures var frame := S.Sanitized(old(parsed[..]), sanitizer.limits);
              && risk == TopViews(Filter(frame, ToRisk(frame)), policy, toLocal)
              && var mapped := Mapped(Filter(frame, ToBlur(frame)), mapper.a);
                 |blur| == |mapped| && forall i :: 0 <= i < |blur| ==> blur[i] == ToBlurTarget(mapped[i])
    {
      var size := sanitizer.Sanitize(parsed);
      Route(parsed[..size], routeResult);
      risk := RiskPath(routeResult.risk);
      blur := BlurPath(routeResult.blur);
    }
  }

  lemma {:induction false} TopViewComesFrom(risk: seq<DetectedObject>, policy: RiskEdgePolicy,
                                            toLocal: Point -> Option<Point>, t: TopViewObject)
                                              returns (o: DetectedObject)
    requires t in TopViews(risk, policy, toLocal)
    ensures o in risk && TopView(o, policy, toLocal) == Some(t)
  {
    var n := |risk| - 1;
    if TopView(risk[n], policy, toLocal) == Some(t) {
      o := risk[n];
    } else {
      o := TopViewComesFrom(risk[..n], policy, toLocal, t);
    }
  }

  /** Whatever is shown on the top view is a parentless Human or Vehicle of the camera's frame
      that passed the edge policy, at the world point of its ground point. */
  lemma TopViewIsPublic(parsed: seq<DetectedObject>, limits: S.Thresholds, policy: RiskEdgePolicy,
                        toLocal: Point -> Option<Point>, t: TopViewObject) returns (o: DetectedObject)
    requires var frame := S.Sanitized(parsed, limits); t in TopViews(Filter(frame, ToRisk(frame)), policy, toLocal)
    ensures o in parsed && o.parentId.None? && (o.cls == Human || o.cls == Vehicle)
    ensures !IsEdgeRejected(o, policy) && toLocal(GroundPoint(o.box)) == Some(t.pos)
    ensures t.id == o.id && t.cls == o.cls && t.edge == o.touchesBorder
  {
    var frame := S.Sanitized(parsed, limits);
    o := TopViewComesFrom(Filter(frame, ToRisk(frame)), policy, toLocal, t);
  }

  /** Touching the bottom or any border of the picture is enough for the policies that say so. */
  predicate Passes(o: DetectedObject, policy: RiskEdgePolicy) {
    (policy == DropBottomTruncated ==> !o.bottomTruncated) && (policy == DropAnyEdge ==> !o.touchesBorder)
  }

  /** The object as the top view shows it, if the middle of its lower edge has a place in the world. */
  predicate IsSeenAs(o: DetectedObject, toLocal: Point -> Option<Point>, t: TopViewObject) {
    && toLocal(Point((o.box.l + o.box.r) / 2.0, o.box.b)) == Some(t.pos)
    && t.id == o.id && t.cls == o.cls && t.edge == o.touchesBorder
  }

  lemma {:induction false} SeenIsShown(risk: seq<DetectedObject>, policy: RiskEdgePolicy,
                                       toLocal: Point -> Option<Point>, o: DetectedObject, t: TopViewObject)
    requires o in risk && Passes(o, policy) && IsSeenAs(o, toLocal, t)
    ensures t in TopViews(risk, policy, toLocal)
  {
    var n := |risk| - 1;
    assert GroundPoint(o.box) == Point((o.box.l + o.box.r) / 2.0, o.box.b);
    if o != risk[n] { SeenIsShown(risk[..n], policy, toLocal, o, t); }
  }

  /** From the camera to the top view: exactly the parentless Humans and Vehicles that the sanitizer
      leaves and that pass the policy are shown, each where it stands. */
  lemma OnTopViewExactly(parsed: seq<DetectedObject>, limits: S.Thresholds, policy: RiskEdgePolicy,
                         toLocal: Point -> Option<Point>, t: TopViewObject)
    ensures var frame := S.Sanitized(parsed, limits);
            t in TopViews(Filter(frame, ToRisk(frame)), policy, toLocal) <==>
              exists o :: o in parsed && o.parentId.None? && (o.cls == Human || o.cls == Vehicle)
                          && (|parsed| > S.MAX_OBJECTS_PER_FRAME || !S.Dropped(o, parsed, limits))
                          && Passes(o, policy) && IsSeenAs(o, toLocal, t)
  {
    var frame := S.Sanitized(parsed, limits);
    var risk := Filter(frame, ToRisk(frame));
    if t in TopViews(risk, policy, toLocal) {
      var o := TopViewComesFrom(risk, policy, toLocal, t);
      S.RemovedIsDropped(parsed, limits, o);
      assert Passes(o, policy) && IsSeenAs(o, toLocal, t);
    }
    if o :| o in parsed && o.parentId.None? && (o.cls == Human || o.cls == Vehicle)
            && (|parsed| > S.MAX_OBJECTS_PER_FRAME || !S.Dropped(o, parsed, limits))
            && Passes(o, policy) && IsSeenAs(o, toLocal, t) {
      S.RemovedIsDropped(parsed, limits, o);
      FilterKeeps(frame, ToRisk(frame), o);
      SeenIsShown(risk, policy, toLocal, o, t);
    }
  }

  /** The sanitizer never takes a Head away. */
  lemma SameHeads(parsed: seq<DetectedObject>, limits: S.Thresholds, o: DetectedObject)
    ensures HasHead(o, S.Sanitized(parsed, limits)) <==> HasHead(o, parsed)
  {
    var frame := S.Sanitized(parsed, limits);
    if HasHead(o, parsed) {
      var i :| 0 <= i < |parsed| && IsHeadFor(parsed[i], o);
      S.NonRiskSurvives(parsed, limits, parsed[i]);
      var j :| 0 <= j < |frame| && frame[j] == parsed[i];
    }
    if HasHead(o, frame) {
      var j :| 0 <= j < |frame| && IsHeadFor(frame[j], o);
      assert frame[j] in frame;
    }
  }

  /** Which private objects of the camera's frame reach the blur list: those that have no reason to be
      dropped and no Head that stands for them. Only parented Humans and Vehicles may have such a
      reason, so everything else private stays. */
  lemma PrivateIsListedExactly(parsed: seq<DetectedObject>, limits: S.Thresholds, o: DetectedObject)
    requires o in parsed && Private(o)
    ensures var frame := S.Sanitized(parsed, limits);
            o in Filter(frame, ToBlur(frame)) <==>
              !HasHead(o, parsed) && (|parsed| > S.MAX_OBJECTS_PER_FRAME || !S.Dropped(o, parsed, limits))
    ensures !o.cls.IsRisk() ==> !S.Dropped(o, parsed, limits)
  {
    var frame := S.Sanitized(parsed, limits);
    SameHeads(parsed, limits, o);
    if |parsed| <= S.MAX_OBJECTS_PER_FRAME && !S.Dropped(o, parsed, limits) {
      FilterKeeps(parsed, S.Unwitnessed(parsed, limits), o);
    }
    if o in frame && !HasHead(o, frame) { FilterKeeps(frame, ToBlur(frame), o); }
  }

  /** From the camera to the screen: a private object whose placed box overlaps the screen has every
      visible point covered by its own blur box, unless the sanitizer drops it or it is a Face that
      is represented by its parent's Head. */
  lemma PrivateIsCovered(parsed: seq<DetectedObject>, limits: S.Thresholds, a: Affine, o: DetectedObject)
    returns (covered: DetectedObject)
    requires a.Valid() && o in parsed && Private(o)
    requires |parsed| > S.MAX_OBJECTS_PER_FRAME || !S.Dropped(o, parsed, limits)
    requires o.box.WellFormed() && IsVisible(Place(o.box, a)) && !HasHead(o, parsed)
    ensures var frame := S.Sanitized(parsed, limits); covered in Mapped(Filter(frame, ToBlur(frame)), a)
    ensures covered.id == o.id && covered.cls == o.cls && CoversVisible(covered.box, o.box, a)
  {
    var frame := S.Sanitized(parsed, limits);
    PrivateIsListedExactly(parsed, limits, o);
    VisiblePartIsCovered(o.box, a);
    MappedKeeps(Filter(frame, ToBlur(frame)), a, o);
    covered := o.(box := MapBox(o.box, a).value);
  }

  /** A parented Human inside a parentless one is private, but rule B drops it before routing, and
      nothing is blurred in its place. */
  lemma DroppedHumanIsExposed()
    ensures var inner := DetectedObject(1, Some(7), Human, false, NormBox(0.4, 0.4, 0.6, 0.6), false, false);
            var outer := DetectedObject(2, None, Human, false, NormBox(0.3, 0.3, 0.8, 0.8), false, false);
            var frame := S.Sanitized([inner, outer], S.Thresholds(0.5, 0.9));
            && Private(inner) && !HasHead(inner, [inner, outer])
            && Filter(frame, ToBlur(frame)) == []
  {
    var inner := DetectedObject(1, Some(7), Human, false, NormBox(0.4, 0.4, 0.6, 0.6), false, false);
    var outer := DetectedObject(2, None, Human, false, NormBox(0.3, 0.3, 0.8, 0.8), false, false);
    var limits, parsed := S.Thresholds(0.5, 0.9), [inner, outer];
    assert outer in parsed && S.Witness(inner, outer, limits);
    var frame := S.Sanitized(parsed, limits);
    FilterNone(frame, ToBlur(frame));
  }

  /** For a represented Face the cover is as good as the Head: the router compares parents, not
      boxes. A Head of its parent covers every visible point of the Face if and only if the Head's
      own enlarged box contains the Face's visible part. */
  lemma FaceIsCoveredByHead(parsed: seq<DetectedObject>, limits: S.Thresholds, a: Affine, o: DetectedObject)
    requires a.Valid() && o.parentId.Some? && o.box.WellFormed() && IsVisible(Place(o.box, a))
    ensures var frame := S.Sanitized(parsed, limits);
            (exists p :: p in Mapped(Filter(frame, ToBlur(frame)), a) && IsHeadFor(p, o)
                          && CoversVisible(p.box, o.box, a))
            <==> (exists h :: h in parsed && IsHeadFor(h, o) && h.box.WellFormed()
                              && Inside(ClampToOutput(Place(o.box, a)),
                                        ExpandAroundCenter(Place(h.box, a), a.boxScale)))
  {
    var frame := S.Sanitized(parsed, limits);
    var blur := Filter(frame, ToBlur(frame));
    if p :| p in Mapped(blur, a) && IsHeadFor(p, o) && CoversVisible(p.box, o.box, a) {
      var h := MappedComesFrom(blur, a, p);
      ImageCovers(h.box, o.box, a);
    }
    if h :| h in parsed && IsHeadFor(h, o) && h.box.WellFormed()
            && Inside(ClampToOutput(Place(o.box, a)), ExpandAroundCenter(Place(h.box, a), a.boxScale)) {
      S.NonRiskSurvives(parsed, limits, h);
      FilterKeeps(frame, ToBlur(frame), h);
      ImageCovers(h.box, o.box, a);
      MappedKeeps(blur, a, h);
    }
  }

  /** The image of one box covers the visible part of another exactly if its enlarged box contains it. */
  lemma ImageCovers(cover: NormBox, box: NormBox, a: Affine)
    requires a.Valid() && box.WellFormed() && IsVisible(Place(box, a))
    ensures (MapBox(cover, a).Some? && CoversVisible(MapBox(cover, a).value, box, a))
       <==> cover.WellFormed() && Inside(ClampToOutput(Place(box, a)), ExpandAroundCenter(Place(cover, a), a.boxScale))
  {
    var part := ClampToOutput(Place(box, a));
    PlaceKeepsForm(box, a);
    SurvivesExactly(cover, a);
    if MapBox(cover, a).Some? && CoversVisible(MapBox(cover, a).value, box, a) {
      assert Covers(Place(box, a), part.l, part.t) && OnScreen(part.l, part.t);
      assert Covers(Place(box, a), part.r, part.b) && OnScreen(part.r, part.b);
    }
  }

  lemma ReachesExactly(box: NormBox, a: Affine, x: real, y: real)
    requires a.Valid() && OnScreen(x, y)
    ensures (MapBox(box, a).Some? && Covers(MapBox(box, a).value, x, y)) <==> box.WellFormed() && Reaches(box, a, x, y)
  {
    SurvivesExactly(box, a);
  }

  /** Where the screen is blurred: exactly where a private object of the sanitized frame that no Head
      stands for has its enlarged box on the screen. */
  lemma BlurredExactly(frame: seq<DetectedObject>, a: Affine, x: real, y: real)
    requires a.Valid() && OnScreen(x, y)
    ensures (exists p :: p in Mapped(Filter(frame, ToBlur(frame)), a) && Covers(p.box, x, y))
       <==> (exists o :: o in frame && Private(o) && !HasHead(o, frame) && o.box.WellFormed()
                          && Reaches(o.box, a, x, y))
  {
    var blur := Filter(frame, ToBlur(frame));
    if p :| p in Mapped(blur, a) && Covers(p.box, x, y) {
      var o := MappedComesFrom(blur, a, p);
      ReachesExactly(o.box, a, x, y);
    }
    if o :| o in frame && Private(o) && !HasHead(o, frame) && o.box.WellFormed() && Reaches(o.box, a, x, y) {
      FilterKeeps(frame, ToBlur(frame), o);
      ReachesExactly(o.box, a, x, y);
      MappedKeeps(blur, a, o);
    }
  }

  /** A Face in the middle of the screen whose parent's Head is reported off-screen is shown
      without any blur box. */
  lemma MisplacedHeadExposesFace()
    ensures var face := DetectedObject(1, Some(7), Head, true, NormBox(0.4, 0.4, 0.6, 0.6), false, false);
            var head := DetectedObject(2, Some(7), Head, false, NormBox(1.2, 0.4, 1.4, 0.6), false, false);
            var frame := [face, head];
            Mapped(Filter(frame, ToBlur(frame)), Affine(1.0, 1.0, 0.0, 0.0, 1.0)) == []
  {
    var face := DetectedObject(1, Some(7), Head, true, NormBox(0.4, 0.4, 0.6, 0.6), false, false);
    var head := DetectedObject(2, Some(7), Head, false, NormBox(1.2, 0.4, 1.4, 0.6), false, false);
    var frame, a := [face, head], Affine(1.0, 1.0, 0.0, 0.0, 1.0);
    assert frame[1] == head && HasHead(face, frame);
    var keep := ToBlur(frame);
    assert frame[..1] == [face] && [face][..0] == [];
    assert Filter([face], keep) == [];
    assert Filter(frame, keep) == [head];
    assert [head][..0] == [];
    assert MapBox(head.box, a).None?;
  }
}
