/** Removal of duplicate risk objects by overlap and containment (compute-server ContainmentSanitizer). */
module ContainmentSanitizer {
  import opened Domain

  const MAX_OBJECTS_PER_FRAME := 256

  // ---------- geometry ----------

  function Area(box: NormBox): (a: real)
    ensures a >= 0.0 && (a > 0.0 <==> box.WellFormed())
  {
    var w, h := box.r - box.l, box.b - box.t;
    if w <= 0.0 || h <= 0.0 then 0.0 else Product(w, h); w * h
  }

  lemma Product(w: real, h: real)
    requires w > 0.0 && h > 0.0
    ensures w * h > 0.0
  {}

  lemma ProductBelow(w: real, h: real, w': real, h': real)
    requires 0.0 < w <= w' && 0.0 < h <= h'
    ensures w * h <= w' * h'
  {
    Nonneg(w' - w, h);
    Nonneg(w', h' - h);
    assert w' * h' - w * h == (w' - w) * h + w' * (h' - h);
  }

  function IntersectionArea(a: NormBox, b: NormBox): (inter: real)
  {
    var l, t := Max(a.l, b.l), Max(a.t, b.t);
    var r, bottom := Min(a.r, b.r), Min(a.b, b.b);
    if r <= l || bottom <= t then 0.0 else (r - l) * (bottom - t)
  }

  function Iou(a: NormBox, b: NormBox): real {
    var inter := IntersectionArea(a, b);
    var union := Area(a) + Area(b) - inter;
    if union <= 0.0 then 0.0 else inter / union
  }

  function IoMin(a: NormBox, b: NormBox): real {
    var inter := IntersectionArea(a, b);
    var smaller := Min(Area(a), Area(b));
    if smaller <= 0.0 then 0.0 else inter / smaller
  }

  lemma IntersectionSymmetric(a: NormBox, b: NormBox)
    ensures IntersectionArea(a, b) == IntersectionArea(b, a)
  {}

  lemma IntersectionWithin(a: NormBox, b: NormBox)
    ensures 0.0 <= IntersectionArea(a, b) <= Area(a)
  {
    var l, t := Max(a.l, b.l), Max(a.t, b.t);
    var r, bottom := Min(a.r, b.r), Min(a.b, b.b);
    if l < r && t < bottom {
      var w, h, width, height := r - l, bottom - t, a.r - a.l, a.b - a.t;
      Product(w, h);
      ProductBelow(w, h, width, height);
      assert IntersectionArea(a, b) == w * h && Area(a) == width * height;
    }
  }

  lemma IntersectionBounds(a: NormBox, b: NormBox)
    ensures 0.0 <= IntersectionArea(a, b) <= Min(Area(a), Area(b))
  {
    IntersectionWithin(a, b);
    IntersectionWithin(b, a);
    IntersectionSymmetric(a, b);
  }

  lemma InsideIntersection(a: NormBox, b: NormBox)
    requires Inside(a, b)
    ensures IntersectionArea(a, b) == Area(a)
  {}

  /** The points that two boxes have in common are those of one box, which has the intersection's area. */
  lemma CommonPart(a: NormBox, b: NormBox) returns (common: NormBox)
    ensures IntersectionArea(a, b) == Area(common)
    ensures forall x, y :: Covers(common, x, y) <==> Covers(a, x, y) && Covers(b, x, y)
  {
    common := NormBox(Max(a.l, b.l), Max(a.t, b.t), Min(a.r, b.r), Min(a.b, b.b));
  }

  /** IoU is the share of the common part in what both cover together, IoMin its share in the smaller. */
  lemma SharesOfCommonPart(a: NormBox, b: NormBox)
    requires a.WellFormed() && b.WellFormed()
    ensures var common := IntersectionArea(a, b);
            && Iou(a, b) * (Area(a) + Area(b) - common) == common
            && IoMin(a, b) * (if Area(a) < Area(b) then Area(a) else Area(b)) == common
  {
    IntersectionBounds(a, b);
  }

  lemma RatioBounds(part: real, whole: real)
    requires 0.0 <= part <= whole && 0.0 < whole
    ensures 0.0 <= part / whole <= 1.0 && (part / whole == 1.0 <==> part == whole)
  {}

  /** IoU is symmetric, lies in [0, 1], and is 1 for a box and itself. */
  lemma IouMeasures(a: NormBox, b: NormBox)
    ensures 0.0 <= Iou(a, b) <= 1.0 && Iou(a, b) == Iou(b, a)
    ensures a.WellFormed() && a == b ==> Iou(a, b) == 1.0
    ensures !a.WellFormed() ==> Iou(a, b) == 0.0
  {
    IntersectionBounds(a, b);
    IntersectionSymmetric(a, b);
    if a == b { InsideIntersection(a, b); }
    var inter := IntersectionArea(a, b);
    var union := Area(a) + Area(b) - inter;
    if union > 0.0 { RatioBounds(inter, union); }
  }

  /** So is IoMin, which is 1 for a box inside another one. */
  lemma IoMinMeasures(a: NormBox, b: NormBox)
    ensures 0.0 <= IoMin(a, b) <= 1.0 && IoMin(a, b) == IoMin(b, a)
    ensures a.WellFormed() && Inside(a, b) ==> IoMin(a, b) == 1.0
    ensures !a.WellFormed() ==> IoMin(a, b) == 0.0
  {
    IntersectionBounds(a, b);
    IntersectionSymmetric(a, b);
    if a.WellFormed() && Inside(a, b) {
      InsideIntersection(a, b);
      InsideIsSmaller(a, b);
    }
    var inter, smaller := IntersectionArea(a, b), Min(Area(a), Area(b));
    assert smaller == Min(Area(b), Area(a));
    if smaller > 0.0 { RatioBounds(inter, smaller); }
  }

  lemma InsideIsSmaller(a: NormBox, b: NormBox)
    requires a.WellFormed() && Inside(a, b)
    ensures 0.0 < Area(a) <= Area(b)
  {
    ProductBelow(a.r - a.l, a.b - a.t, b.r - b.l, b.b - b.t);
  }

  // ---------- the rules ----------

  datatype Thresholds = Thresholds(iou: real, contain: real) {
    predicate Valid() { 0.0 <= iou <= 1.0 && 0.0 <= contain <= 1.0 }
  }

  /** `y` is a reason to drop `x`: rule A, the same body part was also reported as a blur object;
      rule B, a larger object of the same class contains it. */
  predicate Witness(x: DetectedObject, y: DetectedObject, limits: Thresholds) {
    x.cls.IsRisk() &&
    ((y.cls.IsBlur() && Iou(x.box, y.box) > limits.iou)
     || (x.cls == y.cls && Area(x.box) < Area(y.box) && IoMin(x.box, y.box) > limits.contain))
  }

  ghost predicate Dropped(x: DetectedObject, frame: seq<DetectedObject>, limits: Thresholds) {
    exists y :: y in frame && Witness(x, y, limits)
  }

  ghost function Unwitnessed(frame: seq<DetectedObject>, limits: Thresholds): DetectedObject -> bool {
    x => !Dropped(x, frame, limits)
  }

  /** The frame without its witnessed objects; over-long frames pass unchanged. */
  ghost function Sanitized(frame: seq<DetectedObject>, limits: Thresholds): (r: seq<DetectedObject>) {
    if |frame| > MAX_OBJECTS_PER_FRAME then frame else Filter(frame, Unwitnessed(frame, limits))
  }

  class Sanitizer {
    const limits: Thresholds

    constructor (limits: Thresholds)
      requires limits.Valid()
      ensures this.limits == limits
    {
      this.limits := limits;
    }

    /** Thresholds outside [0, 1] are refused. */
    static method Make(limits: Thresholds) returns (s: Sanitizer?)
      ensures s != null <==> limits.Valid()
      ensures s != null ==> fresh(s) && s.limits == limits
    {
      if limits.iou < 0.0 || limits.iou > 1.0 || limits.contain < 0.0 || limits.contain > 1.0 {
        return null;
      }
      s := new Sanitizer(limits);
    }

    /** The inner loop of the marking pass; an object is not compared with itself. */
    method Judge(objects: array<DetectedObject>, i: nat) returns (drop: bool)
      requires i < objects.Length
      ensures drop <==> Dropped(objects[i], objects[..], limits)
    {
      var x := objects[i];
      if !x.cls.IsRisk() {
        return false;
      }
      for j := 0 to objects.Length
        invariant forall k :: 0 <= k < j ==> !Witness(x, objects[k], limits)
      {
        if i == j {
          continue;
        }
        var y := objects[j];
        if y.cls.IsBlur() && Iou(x.box, y.box) > limits.iou {
          assert y in objects[..];
          return true;
        }
        if x.cls == y.cls && Area(x.box) < Area(y.box) && IoMin(x.box, y.box) > limits.contain {
          assert y in objects[..];
          return true;
        }
      }
      return false;
    }

    method Mark(objects: array<DetectedObject>) returns (drop: array<bool>)
      ensures fresh(drop) && drop.Length == objects.Length
      ensures forall k :: 0 <= k < drop.Length ==> (drop[k] <==> Dropped(objects[k], objects[..], limits))
    {
      drop := new bool[objects.Length];
      for i := 0 to objects.Length
        invariant forall k :: 0 <= k < i ==> (drop[k] <==> Dropped(objects[k], objects[..], limits))
      {
        drop[i] := Judge(objects, i);
      }
    }

    /** Moves the objects that are not marked to the front. */
    method Compact(objects: array<DetectedObject>, drop: array<bool>, ghost keep: DetectedObject -> bool)
      returns (size: nat)
      requires drop.Length == objects.Length
      requires forall k :: 0 <= k < drop.Length ==> (drop[k] <==> !keep(objects[k]))
      modifies objects
      ensures size <= objects.Length
      ensures objects[..size] == Filter(old(objects[..]), keep)
    {
      ghost var frame, kept := objects[..], [];
      size := 0;
      for i := 0 to objects.Length
        invariant size == |kept| && kept == Filter(frame[..i], keep) && Compacting(objects[..], kept, frame, i)
        invariant forall k :: i <= k < objects.Length ==> (drop[k] <==> !keep(frame[k]))
      {
        FilterOneMore(frame, keep, i);
        ghost var now := objects[..];
        CompactOne(now, kept, frame, i, frame[i]);
        assert now[i := frame[i]] == now;
        if drop[i] {
          continue;
        }
        if size != i {
          Put(objects, size, objects[i]);
        }
        kept := kept + [frame[i]];
        size := size + 1;
      }
      assert frame[..objects.Length] == frame;
    }

    /** Two passes: judge all objects against the original frame, then compact. The first
        `size` objects are the result. */
    method Sanitize(objects: array<DetectedObject>) returns (size: nat)
      modifies objects
      ensures size <= objects.Length
      ensures objects[..size] == Sanitized(old(objects[..]), limits)
    {
      if objects.Length > MAX_OBJECTS_PER_FRAME {
        assert objects[..objects.Length] == objects[..];
        return objects.Length;
      }
      var drop := Mark(objects);
      size := Compact(objects, drop, Unwitnessed(objects[..], limits));
    }
  }

  // ---------- what sanitizing guarantees ----------

  /** Only risk objects are removed. */
  lemma NonRiskSurvives(frame: seq<DetectedObject>, limits: Thresholds, x: DetectedObject)
    requires x in frame && !x.cls.IsRisk()
    ensures x in Sanitized(frame, limits)
  {
    if |frame| <= MAX_OBJECTS_PER_FRAME {
      FilterKeeps(frame, Unwitnessed(frame, limits), x);
    }
  }

  lemma Idempotent(frame: seq<DetectedObject>, limits: Thresholds)
    ensures Sanitized(Sanitized(frame, limits), limits) == Sanitized(frame, limits)
  {
    if |frame| <= MAX_OBJECTS_PER_FRAME {
      var once := Sanitized(frame, limits);
      FilterAll(once, Unwitnessed(once, limits));
    }
  }

  /** The order in which the camera lists the objects does not matter. */
  lemma OrderIndependent(frame: seq<DetectedObject>, other: seq<DetectedObject>, limits: Thresholds)
    requires multiset(frame) == multiset(other)
    ensures multiset(Sanitized(frame, limits)) == multiset(Sanitized(other, limits))
  {
    assert |frame| == |multiset(frame)| == |multiset(other)| == |other|;
    assert forall x :: x in frame <==> x in multiset(frame);
    assert forall x :: x in other <==> x in multiset(other);
    if |frame| <= MAX_OBJECTS_PER_FRAME {
      var keep, keepOther := Unwitnessed(frame, limits), Unwitnessed(other, limits);
      forall x ensures multiset(Filter(frame, keep))[x] == multiset(Filter(other, keepOther))[x] {
        FilterCount(frame, keep, x);
        FilterCount(other, keepOther, x);
      }
    }
  }

  lemma RemovedIsDropped(frame: seq<DetectedObject>, limits: Thresholds, x: DetectedObject)
    requires x in frame
    ensures x in Sanitized(frame, limits) <==> |frame| > MAX_OBJECTS_PER_FRAME || !Dropped(x, frame, limits)
  {
    if |frame| <= MAX_OBJECTS_PER_FRAME && !Dropped(x, frame, limits) {
      FilterKeeps(frame, Unwitnessed(frame, limits), x);
    }
  }

  ghost function Larger(frame: seq<DetectedObject>, x: DetectedObject): set<DetectedObject> {
    set y | y in frame && Area(y.box) > Area(x.box)
  }

  /** Each object of the chain is dropped because of the next one. */
  ghost predicate Blames(chain: seq<DetectedObject>, frame: seq<DetectedObject>, limits: Thresholds) {
    && (forall i :: 0 <= i < |chain| ==> chain[i] in frame)
    && forall i :: 0 <= i < |chain| - 1 ==> Witness(chain[i], chain[i + 1], limits)
  }

  lemma BlamesFrom(x: DetectedObject, chain: seq<DetectedObject>, frame: seq<DetectedObject>, limits: Thresholds)
    requires Blames(chain, frame, limits) && chain != [] && x in frame && Witness(x, chain[0], limits)
    ensures Blames([x] + chain, frame, limits)
  {}

  /** Whatever is removed leaves something behind: each witness in turn leads to an object that stays,
      a blur object or a strictly larger one of the same class. */
  lemma {:induction false} RemovalLeavesSurvivor(frame: seq<DetectedObject>, limits: Thresholds, x: DetectedObject)
    returns (chain: seq<DetectedObject>)
    requires x in frame && x !in Sanitized(frame, limits)
    ensures |chain| >= 2 && chain[0] == x && Blames(chain, frame, limits)
    ensures var y := chain[|chain| - 1];
            y in Sanitized(frame, limits) && (y.cls.IsBlur() || (y.cls == x.cls && Area(y.box) > Area(x.box)))
    decreases Larger(frame, x)
  {
    RemovedIsDropped(frame, limits, x);
    var y :| y in frame && Witness(x, y, limits);
    if y in Sanitized(frame, limits) {
      chain := [x, y];
    } else {
      if y.cls.IsBlur() { NonRiskSurvives(frame, limits, y); }
      assert y in Larger(frame, x) && y !in Larger(frame, y);
      var rest := RemovalLeavesSurvivor(frame, limits, y);
      BlamesFrom(x, rest, frame, limits);
      chain := [x] + rest;
    }
  }

  /** Without blur objects the last object of a class is never removed. */
  lemma ClassSurvives(frame: seq<DetectedObject>, limits: Thresholds, x: DetectedObject)
    requires x in frame
    requires forall y :: y in frame ==> !y.cls.IsBlur()
    ensures exists y :: y in Sanitized(frame, limits) && y.cls == x.cls
  {
    if x !in Sanitized(frame, limits) {
      var chain := RemovalLeavesSurvivor(frame, limits, x);
      assert chain[|chain| - 1] in Sanitized(frame, limits);
    }
  }

  /** Rule B catches every strictly smaller box inside one of the same class, unless its
      threshold is 1. */
  lemma ContainmentIsCaught(frame: seq<DetectedObject>, limits: Thresholds, x: DetectedObject, y: DetectedObject)
    requires x in frame && y in frame && x.cls == y.cls && x.cls.IsRisk() && |frame| <= MAX_OBJECTS_PER_FRAME
    requires x.box.WellFormed() && Inside(x.box, y.box) && Area(x.box) < Area(y.box) && limits.contain < 1.0
    ensures x !in Sanitized(frame, limits)
  {
    IoMinMeasures(x.box, y.box);
    assert Witness(x, y, limits);
  }

  /** Thresholds of 1 switch both rules off. */
  lemma UnitThresholdsKeepAll(frame: seq<DetectedObject>)
    ensures Sanitized(frame, Thresholds(1.0, 1.0)) == frame
  {
    var limits := Thresholds(1.0, 1.0);
    forall a, b | a in frame && b in frame ensures !Witness(a, b, limits) {
      IouMeasures(a.box, b.box);
      IoMinMeasures(a.box, b.box);
    }
    FilterAll(frame, Unwitnessed(frame, limits));
  }
}
