/** Incremental update of the live object table (client DigitalTwinObjectTableModel): removed and
    new rows are announced one by one instead of resetting the view. An object id is represented by
    its place in the order in which ids are compared, the other columns by one number. */
module ObjectTable {

  datatype Object = Object(id: int, data: int)

  function IdsOf(rows: seq<Object>): (r: seq<int>)
    ensures |r| == |rows| && forall i :: 0 <= i < |r| ==> r[i] == rows[i].id
  {
    seq(|rows|, i requires 0 <= i < |rows| => rows[i].id)
  }

  ghost predicate SortedById(rows: seq<Object>) {
    forall i, j :: 0 <= i < j < |rows| ==> rows[i].id <= rows[j].id
  }

  ghost predicate Distinct(rows: seq<Object>) {
    forall i, j :: 0 <= i < j < |rows| ==> rows[i].id != rows[j].id
  }

  predicate HasId(rows: seq<Object>, id: int) {
    exists i :: 0 <= i < |rows| && rows[i].id == id
  }

  function CountId(rows: seq<Object>, id: int): nat {
    if rows == [] then 0 else (if rows[0].id == id then 1 else 0) + CountId(rows[1..], id)
  }

  // ---------- sorting ----------

  function InsertById(o: Object, sorted: seq<Object>): (r: seq<Object>)
    ensures |r| == |sorted| + 1 && forall x :: x in r <==> x == o || x in sorted
  {
    if sorted == [] || o.id <= sorted[0].id then [o] + sorted else [sorted[0]] + InsertById(o, sorted[1..])
  }

  /** `sortedObjectsById`. */
  function Sorted(rows: seq<Object>): (r: seq<Object>)
    ensures |r| == |rows| && forall x :: x in r <==> x in rows
  {
    if rows == [] then [] else InsertById(rows[0], Sorted(rows[1..]))
  }

  lemma {:induction false} InsertKeepsOrder(o: Object, sorted: seq<Object>)
    requires SortedById(sorted)
    ensures SortedById(InsertById(o, sorted))
  {
    if sorted != [] && o.id > sorted[0].id {
      InsertKeepsOrder(o, sorted[1..]);
      var rest := InsertById(o, sorted[1..]);
      forall j | 0 <= j < |rest| ensures sorted[0].id <= rest[j].id { assert rest[j] in rest; }
    }
  }

  lemma {:induction false} InsertCount(o: Object, sorted: seq<Object>, id: int)
    ensures CountId(InsertById(o, sorted), id) == CountId(sorted, id) + if o.id == id then 1 else 0
  {
    if sorted == [] || o.id <= sorted[0].id {
      assert ([o] + sorted)[1..] == sorted;
    } else {
      InsertCount(o, sorted[1..], id);
      assert ([sorted[0]] + InsertById(o, sorted[1..]))[1..] == InsertById(o, sorted[1..]);
    }
  }

  lemma {:induction false} SortedIsSorted(rows: seq<Object>)
    ensures SortedById(Sorted(rows))
  {
    if rows != [] {
      SortedIsSorted(rows[1..]);
      InsertKeepsOrder(rows[0], Sorted(rows[1..]));
    }
  }

  lemma {:induction false} SortedCount(rows: seq<Object>, id: int)
    ensures CountId(Sorted(rows), id) == CountId(rows, id)
  {
    if rows != [] {
      SortedCount(rows[1..], id);
      InsertCount(rows[0], Sorted(rows[1..]), id);
    }
  }

  // ---------- the two loops, as values ----------

  /** Old rows whose id is still present. */
  function Survivors(rows: seq<Object>, next: seq<Object>): (r: seq<Object>)
    ensures forall x :: x in r ==> x in rows
  {
    if rows == [] then []
    else (if HasId(next, rows[0].id) then [rows[0]] else []) + Survivors(rows[1..], next)
  }

  /** Overwrite a row with the same id, insert otherwise. */
  function Merged(rest: seq<Object>, next: seq<Object>): seq<Object> {
    if next == [] then rest
    else if rest != [] && rest[0].id == next[0].id then [next[0]] + Merged(rest[1..], next[1..])
    else [next[0]] + Merged(rest, next[1..])
  }

  function Updated(rows: seq<Object>, objects: seq<Object>): seq<Object> {
    var next := Sorted(objects);
    Merged(Survivors(rows, next), next)
  }

  // ---------- announcements ----------

  datatype Announcement = RemoveRow(row: nat) | InsertRow(row: nat, id: int)

  /** One announcement; one for a row out of range would change nothing. */
  function Followed(ids: seq<int>, a: Announcement): seq<int> {
    match a
    case RemoveRow(row) => if row < |ids| then ids[..row] + ids[row + 1..] else ids
    case InsertRow(row, id) => if row <= |ids| then ids[..row] + [id] + ids[row..] else ids
  }

  /** What a view that follows the announcements believes the ids to be. */
  function Replay(ids: seq<int>, log: seq<Announcement>): seq<int> {
    if log == [] then ids else Followed(Replay(ids, log[..|log| - 1]), log[|log| - 1])
  }

  lemma ReplayOneMore(ids: seq<int>, log: seq<Announcement>, last: Announcement)
    ensures Replay(ids, log + [last]) == Followed(Replay(ids, log), last)
  {
    assert (log + [last])[..|log|] == log;
  }

  class TableModel {
    var objects: seq<Object>

    constructor ()
      ensures objects == []
    {
      objects := [];
    }

    method FindId(next: seq<Object>, id: int) returns (found: bool)
      ensures found <==> HasId(next, id)
    {
      for i := 0 to |next|
        invariant forall k :: 0 <= k < i ==> next[k].id != id
      {
        if next[i].id == id {
          return true;
        }
      }
      return false;
    }

    /** First loop: rows whose id has gone. */
    method RemoveGone(next: seq<Object>) returns (log: seq<Announcement>)
      modifies this
      ensures objects == Survivors(old(objects), next)
      ensures Replay(IdsOf(old(objects)), log) == IdsOf(objects)
      ensures |log| == |old(objects)| - |objects| && forall k :: 0 <= k < |log| ==> log[k].RemoveRow?
    {
      log := [];
      ghost var before, kept, tail := objects, [], objects;
      var row := 0;
      while row < |objects|
        invariant objects == kept + tail && row == |kept|
        invariant Removing(before, kept, tail, next, log)
        invariant |log| + |objects| == |before| && forall k :: 0 <= k < |log| ==> log[k].RemoveRow?
        decreases |objects| - row
      {
        var stillAlive := FindId(next, objects[row].id);
        if !stillAlive {
          RemoveTurn(before, kept, tail, next, log);
          objects := objects[..row] + objects[row + 1..];
          log := log + [RemoveRow(row)];
          tail := tail[1..];
          continue;
        }
        KeepTurn(before, kept, tail, next, log);
        kept, tail := kept + [tail[0]], tail[1..];
        row := row + 1;
      }
      RemovalDone(before, kept, next, log);
    }

    /** One turn: the target row is overwritten when it has the id, otherwise a row is inserted there. */
    method Turn(target: nat, o: Object, log: seq<Announcement>, ghost before: seq<Object>, ghost done: seq<Object>,
                ghost rest: seq<Object>, ghost todo: seq<Object>, ghost next: seq<Object>)
      returns (more: seq<Announcement>, ghost left: seq<Object>)
      requires objects == done + rest && target == |done| && todo != [] && o == todo[0]
      requires Merging(before, done, rest, todo, next, log)
      modifies this
      ensures objects == (done + [o]) + left && Merging(before, done + [o], left, todo[1..], next, more)
      ensures if |objects| == |old(objects)| then more == log
              else |objects| == |old(objects)| + 1 && more == log + [InsertRow(target, o.id)]
    {
      if target >= |objects| || objects[target].id != o.id {
        InsertTurn(before, done, rest, todo, next, log);
        objects := objects[..target] + [o] + objects[target..];
        more, left := log + [InsertRow(target, o.id)], rest;
      } else {
        OverwriteTurn(before, done, rest, todo, next, log);
        objects := objects[target := o];
        more, left := log, rest[1..];
      }
    }

    /** Second loop: new rows are inserted, the others overwritten. */
    method InsertAndOverwrite(next: seq<Object>) returns (log: seq<Announcement>)
      modifies this
      ensures objects == Merged(old(objects), next)
      ensures Replay(IdsOf(old(objects)), log) == IdsOf(objects)
      ensures |log| == |objects| - |old(objects)| && forall k :: 0 <= k < |log| ==> log[k].InsertRow?
    {
      log := [];
      ghost var before, done, rest, todo := objects, [], objects, next;
      for target := 0 to |next|
        invariant objects == done + rest && |done| == target && todo == next[target..]
        invariant Merging(before, done, rest, todo, next, log)
        invariant |objects| == |before| + |log| && forall k :: 0 <= k < |log| ==> log[k].InsertRow?
      {
        TodoTurn(next, target);
        log, rest := Turn(target, next[target], log, before, done, rest, todo, next);
        done, todo := done + [next[target]], todo[1..];
      }
    }

    /** Replaying what was announced on the old ids gives the new ids, in order, and no more rows
        are announced than disappear and appear. */
    method UpdateObjects(latest: seq<Object>) returns (removals: seq<Announcement>, insertions: seq<Announcement>)
      modifies this
      ensures objects == Updated(old(objects), latest)
      ensures Replay(Replay(IdsOf(old(objects)), removals), insertions) == IdsOf(objects)
      ensures forall k :: 0 <= k < |removals| ==> removals[k].RemoveRow?
      ensures forall k :: 0 <= k < |insertions| ==> insertions[k].InsertRow?
      ensures |removals| == |old(objects)| - |Survivors(old(objects), Sorted(latest))|
      ensures |insertions| == |objects| - |Survivors(old(objects), Sorted(latest))|
    {
      var next := Sorted(latest);
      removals := RemoveGone(next);
      insertions := InsertAndOverwrite(next);
    }
  }

  // ---------- single turns of the loops ----------

  /** `kept` rows are settled, those in `tail` still to be looked at. */
  ghost predicate Removing(before: seq<Object>, kept: seq<Object>, tail: seq<Object>, next: seq<Object>,
                           log: seq<Announcement>) {
    && kept + Survivors(tail, next) == Survivors(before, next)
    && Replay(IdsOf(before), log) == IdsOf(kept + tail)
  }

  lemma KeptSplit(kept: seq<Object>, tail: seq<Object>)
    requires tail != []
    ensures kept + tail == (kept + [tail[0]]) + tail[1..]
  {}

  lemma KeptSurvivors(kept: seq<Object>, tail: seq<Object>, next: seq<Object>)
    requires tail != [] && HasId(next, tail[0].id)
    ensures kept + Survivors(tail, next) == (kept + [tail[0]]) + Survivors(tail[1..], next)
  {}

  lemma KeepTurn(before: seq<Object>, kept: seq<Object>, tail: seq<Object>, next: seq<Object>, log: seq<Announcement>)
    requires Removing(before, kept, tail, next, log) && tail != [] && HasId(next, tail[0].id)
    ensures kept + tail == (kept + [tail[0]]) + tail[1..]
    ensures Removing(before, kept + [tail[0]], tail[1..], next, log)
  {
    KeptSplit(kept, tail);
    KeptSurvivors(kept, tail, next);
  }

  lemma RemoveTurn(before: seq<Object>, kept: seq<Object>, tail: seq<Object>, next: seq<Object>, log: seq<Announcement>)
    requires Removing(before, kept, tail, next, log) && tail != [] && !HasId(next, tail[0].id)
    ensures (kept + tail)[..|kept|] + (kept + tail)[|kept| + 1..] == kept + tail[1..]
    ensures Removing(before, kept, tail[1..], next, log + [RemoveRow(|kept|)])
  {
    ReplayOneMore(IdsOf(before), log, RemoveRow(|kept|));
    RemovedIds(kept, tail);
    assert [] + Survivors(tail[1..], next) == Survivors(tail[1..], next);
  }

  lemma RemovedIds(kept: seq<Object>, tail: seq<Object>)
    requires tail != []
    ensures (kept + tail)[..|kept|] + (kept + tail)[|kept| + 1..] == kept + tail[1..]
    ensures IdsOf(kept + tail[1..]) == Followed(IdsOf(kept + tail), RemoveRow(|kept|))
  {}

  lemma RemovalDone(before: seq<Object>, kept: seq<Object>, next: seq<Object>, log: seq<Announcement>)
    requires Removing(before, kept, [], next, log)
    ensures kept + [] == kept == Survivors(before, next) && Replay(IdsOf(before), log) == IdsOf(kept)
  {
    assert kept + [] == kept;
  }

  /** `done` rows equal the first new ones, `rest` are old rows, `todo` the new ones to come. */
  ghost predicate Merging(before: seq<Object>, done: seq<Object>, rest: seq<Object>, todo: seq<Object>,
                          next: seq<Object>,
                          log: seq<Announcement>)
  {
    && done + Merged(rest, todo) == Merged(before, next)
    && Replay(IdsOf(before), log) == IdsOf(done + rest)
  }

  lemma TodoTurn(next: seq<Object>, target: nat)
    requires target < |next|
    ensures next[target..] != [] && next[target..][0] == next[target] && next[target..][1..] == next[target + 1..]
  {}

  lemma InsertTurn(before: seq<Object>, done: seq<Object>, rest: seq<Object>, todo: seq<Object>, next: seq<Object>,
                   log: seq<Announcement>)
    requires Merging(before, done, rest, todo, next, log) && todo != []
    requires rest == [] || rest[0].id != todo[0].id
    ensures (done + rest)[..|done|] + [todo[0]] + (done + rest)[|done|..] == (done + [todo[0]]) + rest
    ensures Merging(before, done + [todo[0]], rest, todo[1..], next, log + [InsertRow(|done|, todo[0].id)])
  {
    ReplayOneMore(IdsOf(before), log, InsertRow(|done|, todo[0].id));
    InsertedIds(done, rest, todo[0]);
    assert done + Merged(rest, todo) == (done + [todo[0]]) + Merged(rest, todo[1..]);
  }

  lemma InsertedIds(done: seq<Object>, rest: seq<Object>, o: Object)
    ensures (done + rest)[..|done|] + [o] + (done + rest)[|done|..] == (done + [o]) + rest
    ensures IdsOf((done + [o]) + rest) == Followed(IdsOf(done + rest), InsertRow(|done|, o.id))
  {}

  lemma OverwriteTurn(before: seq<Object>, done: seq<Object>, rest: seq<Object>, todo: seq<Object>, next: seq<Object>,
                      log: seq<Announcement>)
    requires Merging(before, done, rest, todo, next, log) && todo != [] && rest != [] && rest[0].id == todo[0].id
    ensures (done + rest)[|done| := todo[0]] == (done + [todo[0]]) + rest[1..]
    ensures Merging(before, done + [todo[0]], rest[1..], todo[1..], next, log)
  {
    assert IdsOf((done + [todo[0]]) + rest[1..]) == IdsOf(done + rest);
    assert done + Merged(rest, todo) == (done + [todo[0]]) + Merged(rest[1..], todo[1..]);
  }

  // ---------- when the rows equal the new list ----------

  lemma {:induction false} CountPositive(rows: seq<Object>, id: int)
    ensures CountId(rows, id) > 0 <==> HasId(rows, id)
  {
    if rows != [] {
      CountPositive(rows[1..], id);
      if rows[0].id != id && HasId(rows, id) {
        var i :| 0 <= i < |rows| && rows[i].id == id;
        assert rows[1..][i - 1].id == id;
      }
      if HasId(rows[1..], id) {
        var i :| 0 <= i < |rows[1..]| && rows[1..][i].id == id;
        assert rows[i + 1].id == id;
      }
    }
  }

  lemma {:induction false} SurvivorsCount(rows: seq<Object>, next: seq<Object>, id: int)
    ensures CountId(Survivors(rows, next), id) == if HasId(next, id) then CountId(rows, id) else 0
  {
    if rows != [] {
      SurvivorsCount(rows[1..], next, id);
      var rest := Survivors(rows[1..], next);
      assert ([rows[0]] + rest)[1..] == rest && [] + rest == rest;
    }
  }

  lemma {:induction false} SurvivorsSorted(rows: seq<Object>, next: seq<Object>)
    requires SortedById(rows)
    ensures SortedById(Survivors(rows, next))
  {
    if rows != [] {
      SurvivorsSorted(rows[1..], next);
      var rest := Survivors(rows[1..], next);
      forall j | 0 <= j < |rest| ensures rows[0].id <= rest[j].id {
        assert rest[j] in rows[1..];
        var k :| 0 <= k < |rows[1..]| && rows[1..][k] == rest[j];
        assert rows[k + 1] == rest[j];
      }
    }
  }

  /** No id more often in `rest` than in `next`. */
  ghost predicate FitsInto(rest: seq<Object>, next: seq<Object>) {
    forall id :: CountId(rest, id) <= CountId(next, id)
  }

  lemma FitsAfterMatch(rest: seq<Object>, next: seq<Object>)
    requires FitsInto(rest, next) && rest != [] && next != [] && rest[0].id == next[0].id
    ensures FitsInto(rest[1..], next[1..])
  {
    forall id ensures CountId(rest[1..], id) <= CountId(next[1..], id) {
      assert CountId(rest, id) <= CountId(next, id);
    }
  }

  lemma FitsAfterInsert(rest: seq<Object>, next: seq<Object>)
    requires FitsInto(rest, next) && SortedById(rest) && SortedById(next) && next != []
    requires rest == [] || rest[0].id != next[0].id
    ensures FitsInto(rest, next[1..])
  {
    if rest != [] {
      CountPositive(rest, rest[0].id);
      CountPositive(next, rest[0].id);
      assert HasId(rest, rest[0].id);
      assert CountId(rest, rest[0].id) <= CountId(next, rest[0].id);
      assert next[0].id < rest[0].id;
    }
    CountPositive(rest, next[0].id);
    forall id ensures CountId(rest, id) <= CountId(next[1..], id) {
      assert CountId(rest, id) <= CountId(next, id);
    }
  }

  lemma FitsIntoNothing(rest: seq<Object>)
    requires FitsInto(rest, [])
    ensures rest == []
  {
    if rest != [] { FirstCounts(rest); }
  }

  lemma FirstCounts(rows: seq<Object>)
    requires rows != []
    ensures CountId(rows, rows[0].id) >= 1
  {}

  lemma {:induction false} MergeEqualsNext(rest: seq<Object>, next: seq<Object>)
    requires SortedById(rest) && SortedById(next) && FitsInto(rest, next)
    ensures Merged(rest, next) == next
    decreases |next|
  {
    if next == [] {
      FitsIntoNothing(rest);
    } else {
      assert [next[0]] + next[1..] == next;
      if rest != [] && rest[0].id == next[0].id {
        FitsAfterMatch(rest, next);
        MergeEqualsNext(rest[1..], next[1..]);
      } else {
        FitsAfterInsert(rest, next);
        MergeEqualsNext(rest, next[1..]);
      }
    }
  }

  /** Merging never loses a row. */
  lemma {:induction false} MergeKeepsCount(rest: seq<Object>, next: seq<Object>, id: int)
    ensures CountId(Merged(rest, next), id) >= CountId(rest, id)
    decreases |next|
  {
    if next != [] {
      if rest != [] && rest[0].id == next[0].id {
        MergeKeepsCount(rest[1..], next[1..], id);
        assert ([next[0]] + Merged(rest[1..], next[1..]))[1..] == Merged(rest[1..], next[1..]);
      } else {
        MergeKeepsCount(rest, next[1..], id);
        assert ([next[0]] + Merged(rest, next[1..]))[1..] == Merged(rest, next[1..]);
      }
    }
  }

  /** The rows end up equal to the new sorted list if and only if no id that stays had more rows
      than it has now. A list that repeats an id therefore leaves rows behind when it is followed
      by one that repeats it less often. */
  lemma UpdatedExactly(rows: seq<Object>, objects: seq<Object>)
    requires SortedById(rows)
    ensures Updated(rows, objects) == Sorted(objects)
       <==> forall id :: HasId(objects, id) ==> CountId(rows, id) <= CountId(objects, id)
  {
    var next := Sorted(objects);
    SortedIsSorted(objects);
    SurvivorsSorted(rows, next);
    forall id
      ensures CountId(next, id) == CountId(objects, id) && (HasId(next, id) <==> HasId(objects, id))
      ensures CountId(Survivors(rows, next), id) == if HasId(objects, id) then CountId(rows, id) else 0
    {
      SortedCount(objects, id);
      CountPositive(objects, id);
      CountPositive(next, id);
      SurvivorsCount(rows, next, id);
    }
    if forall id :: HasId(objects, id) ==> CountId(rows, id) <= CountId(objects, id) {
      MergeEqualsNext(Survivors(rows, next), next);
    } else {
      var id :| HasId(objects, id) && CountId(rows, id) > CountId(objects, id);
      MergeKeepsCount(Survivors(rows, next), next, id);
    }
  }

  lemma TailHasNot(rows: seq<Object>)
    requires Distinct(rows) && rows != []
    ensures !HasId(rows[1..], rows[0].id)
  {
    forall i | 0 <= i < |rows[1..]| ensures rows[1..][i].id != rows[0].id {
      assert rows[1..][i] == rows[i + 1];
    }
  }

  lemma {:induction false} DistinctCount(rows: seq<Object>, id: int)
    requires Distinct(rows)
    ensures CountId(rows, id) <= 1
  {
    if rows != [] {
      DistinctCount(rows[1..], id);
      CountPositive(rows[1..], id);
      TailHasNot(rows);
    }
  }

  lemma {:induction false} SortedDistinct(rows: seq<Object>)
    requires Distinct(rows)
    ensures Distinct(Sorted(rows))
  {
    var next := Sorted(rows);
    forall i, j | 0 <= i < j < |next| ensures next[i].id != next[j].id {
      if next[i].id == next[j].id {
        TwoCopies(next, i, j);
        SortedCount(rows, next[i].id);
        DistinctCount(rows, next[i].id);
      }
    }
  }

  lemma {:induction false} TwoCopies(rows: seq<Object>, i: nat, j: nat)
    requires i < j < |rows| && rows[i].id == rows[j].id
    ensures CountId(rows, rows[i].id) >= 2
  {
    if i == 0 {
      assert rows[1..][j - 1].id == rows[0].id;
      CountPositive(rows[1..], rows[0].id);
    } else {
      TwoCopies(rows[1..], i - 1, j - 1);
    }
  }

  ghost function Run(rows: seq<Object>, lists: seq<seq<Object>>): seq<Object> {
    if lists == [] then rows else Updated(Run(rows, lists[..|lists| - 1]), lists[|lists| - 1])
  }

  /** Over every sequence of updates with distinct ids the table always equals the latest list, sorted. */
  lemma {:induction false} TableFollowsLists(lists: seq<seq<Object>>)
    requires forall i :: 0 <= i < |lists| ==> Distinct(lists[i])
    ensures lists != [] ==> Run([], lists) == Sorted(lists[|lists| - 1])
    ensures SortedById(Run([], lists)) && Distinct(Run([], lists))
  {
    if lists != [] {
      var n := |lists| - 1;
      var before := Run([], lists[..n]);
      TableFollowsLists(lists[..n]);
      forall id | HasId(lists[n], id) ensures CountId(before, id) <= CountId(lists[n], id) {
        DistinctCount(before, id);
        CountPositive(lists[n], id);
      }
      UpdatedExactly(before, lists[n]);
      SortedIsSorted(lists[n]);
      SortedDistinct(lists[n]);
    }
  }
}
