/** The per-window frame aggregators of the control server: the map-based
    TimeWindowAggregator (the simple form) and TimeWindowAggregatorV2 (the fast form,
    with slots, an active list and recycled buffers).

    A frame carries a schema version, a camera timestamp, a channel and its objects; the
    object type is a parameter. Clock values are 64-bit, so their difference is compared
    with the unsigned window size as each version does it. */
module WindowAggregator {

  datatype Option<T> = None | Some(value: T)

  datatype Frame<O> = Frame(v: int, ts: int, ch: int, objects: seq<O>)

  type Window<O> = map<int, Frame<O>>

  const TWO_63 := 0x8000_0000_0000_0000
  const TWO_64 := 0x1_0000_0000_0000_0000
  const MAX_CHANNEL_COUNT := 256
  const MAX_OBJECTS_PER_FRAME := 256

  predicate Int64(t: int) {
    -TWO_63 <= t < TWO_63
  }

  /** V1 compares a signed difference with an unsigned size: the difference wraps. */
  predicate SimpleCloses(elapsed: int, windowSizeMs: nat) {
    elapsed % TWO_64 >= windowSizeMs
  }

  /** V2 casts the size to signed first. */
  predicate FastCloses(elapsed: int, windowSizeMs: nat) {
    elapsed >= if windowSizeMs < TWO_63 then windowSizeMs else windowSizeMs - TWO_64
  }

  /** The two tests agree exactly when the clock has not gone back since the window opened. */
  lemma ClosingTestsAgree(elapsed: int, windowSizeMs: nat)
    requires Int64(elapsed) && windowSizeMs < TWO_63
    ensures SimpleCloses(elapsed, windowSizeMs) == FastCloses(elapsed, windowSizeMs) <==> elapsed >= 0
  {}

  // ---------- the simple form ----------

  datatype Simple<O> = Simple(latest: Window<O>, start: int, hasCallback: bool)

  /** State after a push, and the window handed to the callback, if one was. */
  function SimplePush<O>(s: Simple<O>, frame: Frame<O>, now: int, windowSizeMs: nat): (Simple<O>, Option<Window<O>>) {
    var start := if s.latest == map[] then now else s.start;
    if SimpleCloses(now - start, windowSizeMs) then
      (Simple(map[frame.ch := frame], now, s.hasCallback),
       if s.latest != map[] && s.hasCallback then Some(s.latest) else None)
    else
      (Simple(s.latest[frame.ch := frame], start, s.hasCallback), None)
  }

  class TimeWindowAggregator<O(==)> {
    const windowSizeMs: nat
    var latestByChannel: Window<O>
    var windowStartTime: int
    var hasCallback: bool
    var delivered: seq<Window<O>>

    ghost function Abstract(): Simple<O>
      reads this
    {
      Simple(latestByChannel, windowStartTime, hasCallback)
    }

    constructor (size: nat)
      ensures windowSizeMs == size && Abstract() == Simple(map[], 0, false) && delivered == []
    {
      windowSizeMs := size;
      latestByChannel, windowStartTime, hasCallback, delivered := map[], 0, false, [];
    }

    method SetCallback(callback: bool)
      modifies this
      ensures Abstract() == old(Abstract()).(hasCallback := callback) && delivered == old(delivered)
    {
      hasCallback := callback;
    }

    method Push(frame: Frame<O>, now: int)
      modifies this
      ensures var (after, out) := SimplePush(old(Abstract()), frame, now, windowSizeMs);
              Abstract() == after
              && delivered == old(delivered) + if out.Some? then [out.value] else []
    {
      if latestByChannel == map[] {
        windowStartTime := now;
      }
      if SimpleCloses(now - windowStartTime, windowSizeMs) {
        if latestByChannel != map[] && hasCallback {
          delivered := delivered + [latestByChannel];
        }
        latestByChannel := map[];
        windowStartTime := now;
      }
      latestByChannel := latestByChannel[frame.ch := frame];
    }
  }

  // ---------- the buffer pool ----------

  /** Buffers come back with their old contents; `acquire` hands those out again. */
  class FrameBufferPool<O> {
    var free: seq<seq<Frame<O>>>
    var exhaustedCount: nat

    constructor (poolSize: nat)
      ensures |free| == poolSize && exhaustedCount == 0
    {
      free := seq(poolSize, _ => []);
      exhaustedCount := 0;
    }

    method Acquire() returns (buffer: seq<Frame<O>>)
      modifies this
      ensures old(free) == [] ==> buffer == [] && free == [] && exhaustedCount == old(exhaustedCount) + 1
      ensures old(free) != [] ==> old(free) == free + [buffer] && exhaustedCount == old(exhaustedCount)
    {
      if free == [] {
        exhaustedCount := exhaustedCount + 1;
        return [];
      }
      buffer := free[|free| - 1];
      free := free[..|free| - 1];
    }

    method Release(buffer: seq<Frame<O>>)
      modifies this
      ensures free == old(free) + [buffer] && exhaustedCount == old(exhaustedCount)
    {
      free := free + [buffer];
    }
  }

  // ---------- the fast form ----------

  /** `order` lists the channels of the window by first arrival. */
  datatype Fast<O> = Fast(window: Window<O>, order: seq<int>, start: int,
                          running: bool, deadline: Option<int>, hasCallback: bool)

  ghost predicate Coherent<O>(window: Window<O>, order: seq<int>) {
    && (forall i, j :: 0 <= i < j < |order| ==> order[i] != order[j])
    && (forall i :: 0 <= i < |order| ==> order[i] in window)
    && (forall ch :: ch in window ==> ch in order)
    && (forall ch :: ch in window ==> window[ch].ch == ch)
  }

  ghost function Batch<O>(window: Window<O>, order: seq<int>): (batch: seq<Frame<O>>)
    requires forall i :: 0 <= i < |order| ==> order[i] in window
    ensures |batch| == |order| && forall i :: 0 <= i < |order| ==> batch[i] == window[order[i]]
  {
    seq(|order|, i requires 0 <= i < |order| => window[order[i]])
  }

  predicate Accepted<O>(frame: Frame<O>, channelCount: nat) {
    0 <= frame.ch < channelCount && |frame.objects| <= MAX_OBJECTS_PER_FRAME
  }

  /** First half of a push at clock time `now`: an expired window is closed. */
  ghost function FastExpire<O>(s: Fast<O>, now: int, windowSizeMs: nat)
    : (r: (Fast<O>, Option<seq<Frame<O>>>))
    requires Coherent(s.window, s.order)
    ensures Coherent(r.0.window, r.0.order)
  {
    var start := if s.order == [] then now else s.start;
    if !s.running && FastCloses(now - start, windowSizeMs) then
      (s.(window := map[], order := [], start := now),
       if s.order != [] && s.hasCallback then Some(Batch(s.window, s.order)) else None)
    else (s.(start := start), None)
  }

  /** Second half, at steady time `steady`: the frame replaces the earlier one of its channel. */
  ghost function FastStore<O>(s: Fast<O>, frame: Frame<O>, steady: int, windowSizeMs: nat): (r: Fast<O>)
    requires Coherent(s.window, s.order)
    ensures Coherent(r.window, r.order)
  {
    s.(window := s.window[frame.ch := frame],
       order := if frame.ch in s.order then s.order else s.order + [frame.ch],
       deadline := if s.order == [] && s.running then Some(steady + windowSizeMs) else s.deadline)
  }

  ghost function FastPush<O>(s: Fast<O>, frame: Frame<O>, now: int, steady: int, windowSizeMs: nat, channelCount: nat)
    : (r: (Fast<O>, Option<seq<Frame<O>>>))
    requires Coherent(s.window, s.order)
    ensures Coherent(r.0.window, r.0.order)
  {
    if !Accepted(frame, channelCount) then (s, None)
    else
      var (open, out) := FastExpire(s, now, windowSizeMs);
      (FastStore(open, frame, steady, windowSizeMs), out)
  }

  /** The timed section of the flush thread, once the deadline has passed. */
  ghost function FastFlush<O>(s: Fast<O>, now: int, steady: int, windowSizeMs: nat): (Fast<O>, Option<seq<Frame<O>>>)
    requires Coherent(s.window, s.order)
  {
    (Fast(map[], [], now, s.running, Some(steady + windowSizeMs), s.hasCallback),
     if s.hasCallback then Some(Batch(s.window, s.order)) else None)
  }

  /** The first `i` active slots have been moved out, the others still hold their frames. */
  ghost predicate Filling<O>(out: seq<Frame<O>>, batch: seq<Frame<O>>, active: seq<int>, slots: seq<Frame<O>>,
                             occupied: seq<bool>, i: nat)
  {
    && |out| == |active| == |batch| && i <= |active| && |slots| == |occupied|
    && (forall k :: 0 <= k < |active| ==> 0 <= active[k] < |slots|)
    && (forall j, k :: 0 <= j < k < |active| ==> active[j] != active[k])
    && (forall k :: 0 <= k < i ==> out[k] == batch[k] && !occupied[active[k]])
    && (forall k :: i <= k < |active| ==> slots[active[k]] == batch[k])
    && forall ch :: 0 <= ch < |slots| && ch !in active ==> !occupied[ch]
  }

  lemma FillOne<O>(out: seq<Frame<O>>, batch: seq<Frame<O>>, active: seq<int>, slots: seq<Frame<O>>,
                   occupied: seq<bool>,
                   i: nat, after: seq<Frame<O>>, are: seq<bool>)
    requires Filling(out, batch, active, slots, occupied, i) && i < |active|
    requires |after| == |are| == |slots| && !are[active[i]]
    requires forall ch :: 0 <= ch < |slots| && ch != active[i] ==> after[ch] == slots[ch] && are[ch] == occupied[ch]
    ensures slots[active[i]] == batch[i] && Filling(out[i := batch[i]], batch, active, after, are, i + 1)
  {}

  lemma FilledAll<O>(out: seq<Frame<O>>, batch: seq<Frame<O>>, active: seq<int>, slots: seq<Frame<O>>,
                     occupied: seq<bool>)
    requires Filling(out, batch, active, slots, occupied, |active|)
    ensures out == batch && forall ch :: 0 <= ch < |slots| ==> !occupied[ch]
  {
    forall ch | 0 <= ch < |slots| ensures !occupied[ch] {
      if ch in active { var k :| 0 <= k < |active| && active[k] == ch; }
    }
  }

  class TimeWindowAggregatorV2<O(0)> {
    const windowSizeMs: nat
    const channelCount: nat
    const slots: array<Frame<O>>
    const occupied: array<bool>
    var activeChannels: seq<int>
    var windowStartTime: int
    var running: bool
    var windowDeadline: Option<int>
    var hasCallback: bool
    const flushPool: FrameBufferPool<O>
    /** Everything handed to the callback, in order. */
    var delivered: seq<seq<Frame<O>>>

    ghost predicate Valid()
      reads this, slots, occupied
    {
      && slots.Length == occupied.Length == channelCount
      && (forall i, j :: 0 <= i < j < |activeChannels| ==> activeChannels[i] != activeChannels[j])
      && (forall i :: 0 <= i < |activeChannels| ==> 0 <= activeChannels[i] < channelCount)
      && (forall ch :: 0 <= ch < channelCount ==> (occupied[ch] <==> ch in activeChannels))
      && (forall ch :: 0 <= ch < channelCount && occupied[ch] ==> slots[ch].ch == ch)
    }

    /** The window is what the occupied slots hold; the other slots are stale. */
    ghost function Contents(): Window<O>
      requires Valid()
      reads this, slots, occupied
    {
      map ch | ch in activeChannels :: slots[ch]
    }

    ghost function Abstract(): Fast<O>
      requires Valid()
      reads this, slots, occupied
    {
      Fast(Contents(), activeChannels, windowStartTime, running, windowDeadline, hasCallback)
    }

    constructor (size: nat, channels: nat)
      requires 1 <= channels <= MAX_CHANNEL_COUNT
      ensures Valid() && windowSizeMs == size && channelCount == channels
      ensures Abstract() == Fast(map[], [], 0, false, None, false) && delivered == []
      ensures fresh(slots) && fresh(occupied) && fresh(flushPool)
    {
      windowSizeMs, channelCount := size, channels;
      slots := new Frame<O>[channels](_ => Frame(1, 0, 0, []));
      occupied := new bool[channels](_ => false);
      activeChannels, windowStartTime, running, windowDeadline := [], 0, false, None;
      hasCallback, delivered := false, [];
      flushPool := new FrameBufferPool(4);
    }

    method SetCallback(callback: bool)
      requires Valid()
      modifies this`hasCallback
      ensures Valid() && Abstract() == old(Abstract()).(hasCallback := callback)
    {
      hasCallback := callback;
    }

    method Start()
      requires Valid()
      modifies this`running
      ensures Valid() && Abstract() == old(Abstract()).(running := true)
    {
      running := true;
    }

    method ClearSlotsLocked()
      requires Valid()
      modifies this`activeChannels, slots, occupied
      ensures Valid() && activeChannels == []
    {
      var i := 0;
      while i < |activeChannels|
        invariant i <= |activeChannels|
        invariant forall k :: 0 <= k < |activeChannels| ==> 0 <= activeChannels[k] < channelCount
        invariant forall k :: 0 <= k < i ==> !occupied[activeChannels[k]]
        invariant forall ch :: 0 <= ch < channelCount && ch !in activeChannels ==> !occupied[ch]
      {
        var idx := activeChannels[i];
        slots[idx] := slots[idx].(objects := []);
        occupied[idx] := false;
        i := i + 1;
      }
      activeChannels := [];
    }

    method Stop()
      requires Valid()
      modifies this`running, this`activeChannels, this`windowStartTime, this`windowDeadline, slots, occupied
      ensures Valid()
      ensures Abstract() == if old(running) then Fast(map[], [], 0, false, None, hasCallback) else old(Abstract())
    {
      if !running { return; }
      running := false;
      ClearSlotsLocked();
      windowStartTime := 0;
      windowDeadline := None;
    }

    /** Swaps the slot's objects out; the list that comes back is cleared. */
    method TakeSlot(index: int) returns (destination: Frame<O>)
      requires slots.Length == occupied.Length == channelCount && 0 <= index < channelCount
      modifies slots, occupied
      ensures destination == old(slots[index]) && !occupied[index]
      ensures forall ch :: 0 <= ch < channelCount && ch != index ==>
                slots[ch] == old(slots[ch]) && occupied[ch] == old(occupied[ch])
    {
      var slot := slots[index];
      destination := Frame(slot.v, slot.ts, slot.ch, slot.objects);
      slots[index] := slot.(objects := []);
      occupied[index] := false;
    }

    /** Moves the occupied slots into a recycled buffer: the outer vector is resized, then
        every element is overwritten, so no stale frame survives. */
    method FillFlushBufferLocked(stale: seq<Frame<O>>) returns (out: seq<Frame<O>>)
      requires Valid()
      modifies this`activeChannels, slots, occupied
      ensures Valid() && activeChannels == []
      ensures out == Batch(old(Contents()), old(activeChannels))
    {
      var n := |activeChannels|;
      out := if n <= |stale| then stale[..n] else stale + seq(n - |stale|, _ => Frame(1, 0, 0, []));
      ghost var active, batch := activeChannels, Batch(Contents(), activeChannels);
      var i := 0;
      while i < n
        invariant i <= n && activeChannels == active && |active| == n
        invariant slots.Length == occupied.Length == channelCount
        invariant Filling(out, batch, active, slots[..], occupied[..], i)
      {
        ghost var before, were := slots[..], occupied[..];
        var destination := TakeSlot(activeChannels[i]);
        FillOne(out, batch, active, before, were, i, slots[..], occupied[..]);
        out := out[i := destination];
        i := i + 1;
      }
      activeChannels := [];
      FilledAll(out, batch, active, slots[..], occupied[..]);
    }

    /** Closes the window: hands it out when a callback is registered, drops it otherwise. */
    method CloseWindowLocked()
      requires Valid()
      modifies this`activeChannels, this`delivered, slots, occupied, flushPool
      ensures Valid() && activeChannels == []
      ensures delivered == old(delivered)
                           + if hasCallback then [Batch(old(Contents()), old(activeChannels))] else []
    {
      if hasCallback {
        var buffer := flushPool.Acquire();
        var flushed := FillFlushBufferLocked(buffer);
        delivered := delivered + [flushed];
        flushPool.Release(flushed);
      } else {
        ClearSlotsLocked();
      }
    }

    method ExpireLocked(now: int)
      requires Valid()
      modifies this`activeChannels, this`windowStartTime, this`delivered, slots, occupied, flushPool
      ensures Valid()
      ensures var (after, out) := FastExpire(old(Abstract()), now, windowSizeMs);
              Abstract() == after && delivered == old(delivered) + if out.Some? then [out.value] else []
    {
      if activeChannels == [] {
        windowStartTime := now;
      }
      if !running && FastCloses(now - windowStartTime, windowSizeMs) {
        if activeChannels != [] {
          CloseWindowLocked();
        }
        windowStartTime := now;
      }
    }

    method StoreLocked(frame: Frame<O>, steady: int)
      requires Valid() && 0 <= frame.ch < channelCount
      modifies this`activeChannels, this`windowDeadline, slots, occupied
      ensures Valid() && Abstract() == FastStore(old(Abstract()), frame, steady, windowSizeMs)
    {
      var idx := frame.ch;
      if !occupied[idx] {
        var startsWindow := activeChannels == [];
        Occupy(frame);
        if startsWindow && running {
          windowDeadline := Some(steady + windowSizeMs);
        }
      } else {
        Replace(frame);
      }
    }

    method Replace(frame: Frame<O>)
      requires Valid() && 0 <= frame.ch < channelCount && occupied[frame.ch]
      modifies slots
      ensures Valid() && Contents() == old(Contents())[frame.ch := frame]
    {
      slots[frame.ch] := Frame(frame.v, frame.ts, frame.ch, frame.objects);
    }

    /** Fills a slot that is not in the window yet; whatever it held is overwritten. */
    method Occupy(frame: Frame<O>)
      requires Valid() && 0 <= frame.ch < channelCount && !occupied[frame.ch]
      modifies this`activeChannels, slots, occupied
      ensures Valid() && activeChannels == old(activeChannels) + [frame.ch]
      ensures Contents() == old(Contents())[frame.ch := frame]
    {
      var idx := frame.ch;
      slots[idx] := Frame(frame.v, frame.ts, frame.ch, frame.objects);
      occupied[idx] := true;
      ghost var before := activeChannels;
      activeChannels := activeChannels + [frame.ch];
      assert forall ch :: ch in activeChannels <==> ch in before || ch == idx;
    }

    method Push(frame: Frame<O>, now: int, steady: int)
      requires Valid()
      modifies this`activeChannels, this`windowStartTime, this`windowDeadline, this`delivered
      modifies slots, occupied, flushPool
      ensures Valid()
      ensures var (after, out) := FastPush(old(Abstract()), frame, now, steady, windowSizeMs, channelCount);
              Abstract() == after && delivered == old(delivered) + if out.Some? then [out.value] else []
    {
      if frame.ch < 0 || frame.ch >= channelCount || |frame.objects| > MAX_OBJECTS_PER_FRAME {
        return;
      }
      ExpireLocked(now);
      StoreLocked(frame, steady);
    }

    /** The flush thread's timed section. */
    method FlushOnDeadline(now: int, steady: int)
      requires Valid() && running && windowDeadline.Some? && steady >= windowDeadline.value
      modifies this`activeChannels, this`windowStartTime, this`windowDeadline, this`delivered
      modifies slots, occupied, flushPool
      ensures Valid()
      ensures var (after, out) := FastFlush(old(Abstract()), now, steady, windowSizeMs);
              Abstract() == after
              && delivered == old(delivered) + if out.Some? then [out.value] else []
    {
      CloseWindowLocked();
      windowStartTime := now;
      windowDeadline := Some(steady + windowSizeMs);
    }
  }
}
