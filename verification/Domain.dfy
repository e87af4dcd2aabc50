/** Detected objects and boxes of the metadata path. Coordinates are reals: rounding is not modelled. */
module Domain {

  datatype Option<T> = None | Some(value: T)

  datatype ObjectClass = Unknown | Human | Vehicle | Head | LicensePlate {
    predicate IsRisk() { Human? || Vehicle? }
    predicate IsBlur() { Head? || LicensePlate? }
  }

  datatype NormBox = NormBox(l: real, t: real, r: real, b: real) {
    predicate WellFormed() { l < r && t < b }
  }

  /** Ids are the tracker's, unique within one camera only. */
  datatype DetectedObject = DetectedObject(
    id: int, parentId: Option<int>, cls: ObjectClass, isFace: bool, box: NormBox,
    touchesBorder: bool, bottomTruncated: bool)

  function Max(x: real, y: real): real { if x < y then y else x }
  function Min(x: real, y: real): real { if y < x then y else x }

  lemma Nonneg(x: real, y: real)
    requires x >= 0.0 && y >= 0.0
    ensures x * y >= 0.0
  {}

  predicate Inside(inner: NormBox, outer: NormBox) {
    outer.l <= inner.l && inner.r <= outer.r && outer.t <= inner.t && inner.b <= outer.b
  }

  predicate Covers(box: NormBox, x: real, y: real) { box.l <= x <= box.r && box.t <= y <= box.b }

  // ---------- compaction in place ----------

  method Put<T>(a: array<T>, at: nat, x: T)
    requires at < a.Length
    modifies a
    ensures a[..] == old(a[..])[at := x]
  {
    a[at] := x;
  }

  /** The front of an array holds what became of the first `i` elements, the others are untouched. */
  ghost predicate Compacting<T>(now: seq<T>, kept: seq<T>, frame: seq<T>, i: nat) {
    |now| == |frame| && |kept| <= i <= |frame| && now[..|kept|] == kept && now[i..] == frame[i..]
  }

  /** Element `i` is skipped, or turned into `x` and moved to the front. */
  lemma CompactOne<T>(now: seq<T>, kept: seq<T>, frame: seq<T>, i: nat, x: T)
    requires Compacting(now, kept, frame, i) && i < |frame|
    ensures now[i] == frame[i] && Compacting(now, kept, frame, i + 1)
    ensures Compacting(now[i := x][|kept| := x], kept + [x], frame, i + 1)
  {
    var moved := now[i := x][|kept| := x];
    assert now[i] == now[i..][0] == frame[i..][0];
    assert now[i + 1..] == now[i..][1..] && frame[i + 1..] == frame[i..][1..];
    assert moved[i + 1..] == now[i + 1..] && moved[..|kept|] == now[..|kept|];
  }

  /** The items that satisfy `keep`, in order. */
  ghost function Filter<T>(items: seq<T>, keep: T -> bool): (r: seq<T>)
    ensures |r| <= |items|
    ensures forall x :: x in r ==> x in items && keep(x)
  {
    if items == [] then []
    else
      var last := items[|items| - 1];
      Filter(items[..|items| - 1], keep) + if keep(last) then [last] else []
  }

  lemma FilterOneMore<T>(items: seq<T>, keep: T -> bool, i: nat)
    requires i < |items|
    ensures Filter(items[..i + 1], keep) == Filter(items[..i], keep) + if keep(items[i]) then [items[i]] else []
  {
    assert items[..i + 1][..i] == items[..i];
  }

  lemma {:induction false} FilterKeeps<T>(items: seq<T>, keep: T -> bool, x: T)
    requires x in items && keep(x)
    ensures x in Filter(items, keep)
  {
    var n := |items| - 1;
    if x != items[n] {
      FilterKeeps(items[..n], keep, x);
    }
  }

  lemma {:induction false} FilterAll<T>(items: seq<T>, keep: T -> bool)
    requires forall x :: x in items ==> keep(x)
    ensures Filter(items, keep) == items
  {
    if items != [] {
      var before, last := items[..|items| - 1], items[|items| - 1];
      assert items == before + [last];
      assert last in items;
      FilterAll(before, keep);
    }
  }

  lemma {:induction false} FilterNone<T>(items: seq<T>, keep: T -> bool)
    requires forall x :: x in items ==> !keep(x)
    ensures Filter(items, keep) == []
  {
    if items != [] {
      var before, last := items[..|items| - 1], items[|items| - 1];
      assert items == before + [last];
      assert last in items;
      FilterNone(before, keep);
    }
  }

  /** Filtering keeps every copy of what it keeps. */
  lemma {:induction false} FilterCount<T>(items: seq<T>, keep: T -> bool, x: T)
    ensures multiset(Filter(items, keep))[x] == if keep(x) then multiset(items)[x] else 0
  {
    if items != [] {
      var n := |items| - 1;
      FilterCount(items[..n], keep, x);
      assert items == items[..n] + [items[n]];
    }
  }

  lemma NothingIn(todo: set<int>)
    requires forall x :: x !in todo
    ensures todo == {}
  {
    var nothing: set<int> := {};
    assert forall x :: x in todo <==> x in nothing;
  }

  lemma SomethingLeft(todo: set<int>)
    requires todo != {}
    ensures exists x :: x in todo
  {
    if forall x :: x !in todo { NothingIn(todo); }
  }
}
