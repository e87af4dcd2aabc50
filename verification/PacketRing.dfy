/** The packet ring between the RTSP thread and the pipeline (compute-server
    RtspOnvifSourceV2): a bounded drop-oldest queue whose slots keep the byte buffers
    that the consumer swapped in. */
module PacketRing {

  /** `time` stands for the arrival time of the packet. */
  datatype RawPacket = RawPacket(channelId: int, bytes: seq<int>, time: int)

  /** Position `x` of the ring, for the at most one wrap that the source can see. */
  function Wrapped(x: nat, capacity: nat): (r: nat)
    requires x < 2 * capacity
    ensures r < capacity
  {
    if x < capacity then x else x - capacity
  }

  lemma WrapOnce(x: nat, capacity: nat)
    requires x < 2 * capacity
    ensures x % capacity == Wrapped(x, capacity)
  {}

  ghost function Newest(produced: seq<RawPacket>, count: nat): seq<RawPacket>
    requires count <= |produced|
  {
    produced[|produced| - count..]
  }

  /** The queue after one more packet, with and without room for it. */
  ghost predicate Pushed(produced: seq<RawPacket>, count: nat, capacity: nat, p: RawPacket)
    requires count <= |produced| && count <= capacity && capacity > 0
  {
    if count == capacity then Newest(produced + [p], count) == Newest(produced, count)[1..] + [p]
    else Newest(produced + [p], count + 1) == Newest(produced, count) + [p]
  }

  lemma NewestPushed(produced: seq<RawPacket>, count: nat, capacity: nat, p: RawPacket)
    requires count <= |produced| && count <= capacity && capacity > 0
    ensures Pushed(produced, count, capacity, p)
  {}

  ghost function SlotAt(slots: seq<RawPacket>, head: nat, i: nat): RawPacket
    requires head < |slots| && i < |slots|
  {
    slots[Wrapped(head + i, |slots|)]
  }

  /** The `count` slots from `head` on, wrapping around, hold the newest `count` packets; what the
      other slots hold does not matter. */
  ghost predicate Holds(slots: seq<RawPacket>, head: nat, count: nat, produced: seq<RawPacket>) {
    && head < |slots| && count <= |slots| && count <= |produced|
    && forall i: nat :: i < count ==> SlotAt(slots, head, i) == produced[|produced| - count + i]
  }

  lemma FreeSlotTaken(slots: seq<RawPacket>, head: nat, count: nat, produced: seq<RawPacket>, p: RawPacket)
    requires Holds(slots, head, count, produced) && count < |slots|
    ensures Holds(slots[Wrapped(head + count, |slots|) := p], head, count + 1, produced + [p])
  {
    var after := slots[Wrapped(head + count, |slots|) := p];
    forall i: nat | i < count + 1 ensures SlotAt(after, head, i) == (produced + [p])[|produced| - count + i] {
      if i < count { assert SlotAt(after, head, i) == SlotAt(slots, head, i); }
    }
  }

  lemma OldestOverwritten(slots: seq<RawPacket>, head: nat, produced: seq<RawPacket>, p: RawPacket)
    requires Holds(slots, head, |slots|, produced)
    ensures Holds(slots[head := p], Wrapped(head + 1, |slots|), |slots|, produced + [p])
  {
    var after, next := slots[head := p], Wrapped(head + 1, |slots|);
    forall i: nat | i < |slots| ensures SlotAt(after, next, i) == (produced + [p])[|produced| + 1 - |slots| + i] {
      if i + 1 < |slots| { assert SlotAt(after, next, i) == SlotAt(slots, head, i + 1); }
    }
  }

  lemma OldestHandedOut(slots: seq<RawPacket>, head: nat, count: nat, produced: seq<RawPacket>, junk: RawPacket)
    requires Holds(slots, head, count, produced) && count > 0
    ensures slots[head] == produced[|produced| - count]
    ensures Holds(slots[head := junk], Wrapped(head + 1, |slots|), count - 1, produced)
  {
    var after, next := slots[head := junk], Wrapped(head + 1, |slots|);
    assert SlotAt(slots, head, 0) == slots[head];
    forall i: nat | i < count - 1 ensures SlotAt(after, next, i) == produced[|produced| - (count - 1) + i] {
      assert SlotAt(after, next, i) == SlotAt(slots, head, i + 1);
    }
  }

  lemma MoveOne(front: seq<RawPacket>, p: RawPacket, rest: seq<RawPacket>, fewer: seq<RawPacket>)
    requires rest == [p] + fewer
    ensures (front + [p]) + fewer == front + rest
  {}

  class Source {
    const ring: array<RawPacket>
    const channelId: int
    var head: nat
    var count: nat
    var stopping: bool
    var producedCount: nat
    var consumedCount: nat
    var droppedCount: nat
    /** Every packet ever produced, oldest first, and the positions already handed out. */
    ghost var produced: seq<RawPacket>
    ghost var taken: seq<nat>

    ghost predicate Valid()
      reads this, ring
    {
      && Holds(ring[..], head, count, produced)
      && producedCount == |produced| && consumedCount == |taken|
      && producedCount == consumedCount + droppedCount + count
    }

    /** The queue of packets not yet taken. */
    ghost function Stored(): seq<RawPacket>
      requires count <= |produced|
      reads this
    {
      Newest(produced, count)
    }

    ghost function Abstract(): Ring
      reads this
    {
      Ring(|produced|, count, droppedCount, taken)
    }

    constructor (capacity: nat, channel: int)
      requires capacity > 0
      ensures Valid() && fresh(ring) && ring.Length == capacity && channelId == channel
      ensures Abstract() == Run([], capacity) && !stopping
    {
      ring := new RawPacket[capacity](_ => RawPacket(0, [], 0));
      channelId := channel;
      head, count, stopping := 0, 0, false;
      producedCount, consumedCount, droppedCount := 0, 0, 0;
      produced, taken := [], [];
    }

    /** The payload callback, under the ring mutex. */
    method OnPayload(payload: seq<int>, now: int)
      requires Valid()
      modifies this`head, this`count, this`producedCount, this`droppedCount, this`produced, ring
      ensures Valid()
      ensures produced == old(produced) + [RawPacket(channelId, payload, now)]
      ensures Abstract() == Apply(old(Abstract()), Produce, ring.Length)
      ensures Stored() == (if old(count) == ring.Length then old(Stored())[1..] else old(Stored()))
                          + [RawPacket(channelId, payload, now)]
    {
      var packet := RawPacket(channelId, payload, now);
      ghost var slots, after := ring[..], produced + [packet];
      NewestPushed(produced, count, ring.Length, packet);
      var writeIdx;
      if count == ring.Length {
        OldestOverwritten(slots, head, produced, packet);
        WrapOnce(head + 1, ring.Length);
        writeIdx := head;
        head := (head + 1) % ring.Length;
        droppedCount := droppedCount + 1;
      } else {
        FreeSlotTaken(slots, head, count, produced, packet);
        WrapOnce(head + count, ring.Length);
        writeIdx := (head + count) % ring.Length;
        count := count + 1;
      }
      assert Holds(slots[writeIdx := packet], head, count, after);
      ring[writeIdx] := packet;
      assert ring[..] == slots[writeIdx := packet];
      producedCount := producedCount + 1;
      produced := after;
    }

    /** Hands out the oldest packet once the wait for `count > 0 || stopping` is over. The
        consumer's spent buffer goes into the slot and is never seen again. */
    method Next(spent: RawPacket) returns (ok: bool, out: RawPacket)
      requires Valid() && (count > 0 || stopping)
      modifies this`head, this`count, this`consumedCount, this`taken, ring
      ensures Valid() && Abstract() == Apply(old(Abstract()), Consume, ring.Length)
      ensures ok == (old(count) > 0)
      ensures ok ==> old(Stored()) == [out] + Stored()
      ensures !ok ==> stopping && out == spent && count == 0
    {
      if count == 0 {
        return false, spent;
      }
      var slot := ring[head];
      var junk := slot.(bytes := spent.bytes);
      OldestHandedOut(ring[..], head, count, produced, junk);
      out := RawPacket(slot.channelId, slot.bytes, slot.time);
      taken := taken + [|produced| - count];
      ghost var slots := ring[..];
      ring[head] := junk;
      assert ring[..] == slots[head := junk];
      WrapOnce(head + 1, ring.Length);
      head := (head + 1) % ring.Length;
      count := count - 1;
      consumedCount := consumedCount + 1;
      return true, out;
    }

    method Stop()
      requires Valid()
      modifies this`stopping
      ensures Valid() && stopping
    {
      stopping := true;
    }

    /** After `Stop`, with no further payloads, the consumer's calls return exactly the
        stored packets, oldest first, and then false. */
    method DrainAfterStop(spent: RawPacket) returns (taken: seq<RawPacket>)
      requires Valid() && stopping
      modifies this`head, this`count, this`consumedCount, this`taken, ring
      ensures Valid() && count == 0
      ensures taken == old(Stored())
      ensures |produced| == consumedCount + droppedCount
    {
      taken := [];
      var buffer, ok := spent, true;
      ghost var rest := Stored();
      while ok
        invariant Valid() && rest == Stored()
        invariant old(Stored()) == taken + rest
        invariant !ok ==> count == 0
        decreases ok, count
      {
        ok, buffer := Next(buffer);
        if ok {
          MoveOne(taken, buffer, rest, Stored());
          taken, rest := taken + [buffer], Stored();
        }
      }
    }
  }

  // ---------- whole runs ----------

  datatype Event = Produce | Consume

  /** The ring as positions in the production order: `taken` lists the positions handed
      out, the stored ones are the last `stored` of `produced`. */
  datatype Ring = Ring(produced: nat, stored: nat, dropped: nat, taken: seq<nat>)

  function Apply(r: Ring, e: Event, capacity: nat): Ring
    requires r.stored <= r.produced
  {
    match e
    case Produce =>
      if r.stored == capacity then r.(produced := r.produced + 1, dropped := r.dropped + 1)
      else r.(produced := r.produced + 1, stored := r.stored + 1)
    case Consume =>
      if r.stored == 0 then r
      else r.(stored := r.stored - 1, taken := r.taken + [r.produced - r.stored])
  }

  function Run(events: seq<Event>, capacity: nat): (r: Ring)
    requires capacity > 0
    ensures r.stored <= capacity && r.stored <= r.produced
  {
    if events == [] then Ring(0, 0, 0, [])
    else Apply(Run(events[..|events| - 1], capacity), events[|events| - 1], capacity)
  }

  /** In every run packets come out in production order without repeats, always older than
      what is stored, and every produced packet is taken, dropped or stored. */
  lemma {:induction false} RunsInOrder(events: seq<Event>, capacity: nat)
    requires capacity > 0
    ensures var r := Run(events, capacity);
            && (forall i, j :: 0 <= i < j < |r.taken| ==> r.taken[i] < r.taken[j])
            && (forall i :: 0 <= i < |r.taken| ==> r.taken[i] < r.produced - r.stored)
            && r.produced == |r.taken| + r.dropped + r.stored
  {
    if events != [] {
      RunsInOrder(events[..|events| - 1], capacity);
    }
  }

  /** The plain queue of production numbers. */
  datatype Queue = Queue(next: nat, waiting: seq<nat>, out: seq<nat>, lost: seq<nat>)

  /** A new packet goes to the end; one more than fit pushes the oldest out. The consumer takes the oldest. */
  ghost function Queued(events: seq<Event>, capacity: nat): Queue {
    if events == [] then Queue(0, [], [], [])
    else
      var q := Queued(events[..|events| - 1], capacity);
      match events[|events| - 1]
      case Produce =>
        var all := q.waiting + [q.next];
        if |all| > capacity then Queue(q.next + 1, all[1..], q.out, q.lost + [all[0]])
        else Queue(q.next + 1, all, q.out, q.lost)
      case Consume => if q.waiting == [] then q else q.(waiting := q.waiting[1..], out := q.out + [q.waiting[0]])
  }

  /** The ring does what the plain queue does, in every run. */
  lemma {:induction false} RingIsQueue(events: seq<Event>, capacity: nat)
    requires capacity > 0
    ensures var r, q := Run(events, capacity), Queued(events, capacity);
            && r.produced == q.next && r.taken == q.out && r.dropped == |q.lost| && r.stored == |q.waiting|
            && forall i :: 0 <= i < r.stored ==> q.waiting[i] == r.produced - r.stored + i
  {
    if events != [] { RingIsQueue(events[..|events| - 1], capacity); }
  }

  // ---------- reconnect backoff ----------

  function NextBackoff(backoff: nat, maximum: nat): nat {
    if backoff > maximum - backoff then maximum else backoff * 2
  }

  /** The delay waited after each session; a session is productive when it delivered a payload. */
  function Waits(sessions: seq<bool>, backoff: nat, initial: nat, maximum: nat): (w: seq<nat>)
    ensures |w| == |sessions|
  {
    if sessions == [] then []
    else
      var wait := if sessions[0] then initial else backoff;
      [wait] + Waits(sessions[1..], NextBackoff(wait, maximum), initial, maximum)
  }

  function Doubled(n: nat, times: nat): nat {
    if times == 0 then n else 2 * Doubled(n, times - 1)
  }

  function Saturated(n: nat, times: nat, maximum: nat): (r: nat) {
    var d := Doubled(n, times);
    if d < maximum then d else maximum
  }

  /** Unproductive sessions ending at position `k`, counted from the last productive one or
      continuing the `already` earlier ones. */
  function Failures(sessions: seq<bool>, k: nat, already: nat): nat
    requires k < |sessions|
  {
    if sessions[k] then 0 else if k == 0 then already else Failures(sessions, k - 1, already) + 1
  }

  lemma SaturatedStep(initial: nat, times: nat, maximum: nat)
    requires 1 <= initial <= maximum
    ensures NextBackoff(Saturated(initial, times, maximum), maximum) == Saturated(initial, times + 1, maximum)
    ensures initial <= Saturated(initial, times, maximum) <= maximum
  {
    if times > 0 { SaturatedStep(initial, times - 1, maximum); }
  }

  lemma FailuresShift(sessions: seq<bool>, k: nat, already: nat)
    requires 0 < k < |sessions|
    ensures Failures(sessions, k, already)
         == Failures(sessions[1..], k - 1, (if sessions[0] then 0 else already) + 1)
  {
    if k > 1 && !sessions[k] { FailuresShift(sessions, k - 1, already); }
  }

  /** Every wait is the configured initial delay doubled once per failure since the last
      productive session, saturating at the configured maximum. */
  lemma {:induction false} WaitsDoubleUntilProductive(sessions: seq<bool>, already: nat, initial: nat, maximum: nat,
                                                      k: nat)
    requires 1 <= initial <= maximum && k < |sessions|
    ensures var w := Waits(sessions, Saturated(initial, already, maximum), initial, maximum);
            w[k] == Saturated(initial, Failures(sessions, k, already), maximum) && initial <= w[k] <= maximum
    decreases k
  {
    var first := if sessions[0] then 0 else already;
    assert Saturated(initial, 0, maximum) == initial;
    SaturatedStep(initial, first, maximum);
    if k > 0 {
      FailuresShift(sessions, k, already);
      WaitsDoubleUntilProductive(sessions[1..], first + 1, initial, maximum, k - 1);
    }
  }
}
