/** What the timer of the started aggregator delivers: each flush hands out exactly the last accepted
    frame of every channel since the flush before. */
module WindowDelivery {
  import opened WindowAggregator
  import opened WindowRuns

  /** What follows from the events alone: the last frames of the open window, when it is due, and the
      windows flushed so far. */
  datatype Plan<O> = Plan(pending: Window<O>, due: Option<int>, windows: seq<Window<O>>)

  /** Frames of unknown channels, and those with more than 256 objects, are ignored. */
  predicate Arrives<O>(e: Timed<O>, channelCount: nat) {
    e.push && 0 <= e.frame.ch && e.frame.ch < channelCount && |e.frame.objects| <= 256
  }

  predicate IsDue(due: Option<int>, steady: int) { due.Some? && steady >= due.value }

  /** A frame joins the open window; the first one makes it due a window size later. When it is due the
      flush thread takes it, and the next one is due at the latest a window size later. */
  ghost function NextPlan<O>(before: Plan<O>, e: Timed<O>, windowSizeMs: nat, channelCount: nat): Plan<O> {
    if !e.push then
      if IsDue(before.due, e.steady) then Plan(map[], Some(e.steady + windowSizeMs), before.windows + [before.pending])
      else before
    else if !Arrives(e, channelCount) then before
    else
      Plan(before.pending[e.frame.ch := e.frame],
           if before.pending == map[] then Some(e.steady + windowSizeMs) else before.due, before.windows)
  }

  ghost function Planned<O>(events: seq<Timed<O>>, windowSizeMs: nat, channelCount: nat): Plan<O> {
    if events == [] then Plan(map[], None, [])
    else NextPlan(Planned(events[..|events| - 1], windowSizeMs, channelCount), events[|events| - 1], windowSizeMs,
                  channelCount)
  }

  /** `start` without frames. */
  predicate StartedEmpty<O>(t: TimedState<O>) {
    t.fast.running && t.fast.order == [] && t.fast.window == map[] && t.fast.deadline == None
  }

  ghost predicate ListsAll<O>(batches: seq<seq<Frame<O>>>, windows: seq<Window<O>>) {
    |batches| == |windows| && forall i :: 0 <= i < |batches| ==> Lists(batches[i], windows[i])
  }

  /** The state is as planned: without a callback nothing is delivered. */
  ghost predicate AsPlanned<O>(t: TimedState<O>, start: TimedState<O>, plan: Plan<O>) {
    && t.fast.running && t.fast.hasCallback == start.fast.hasCallback
    && t.fast.window == plan.pending && t.fast.deadline == plan.due
    && start.delivered <= t.delivered
    && ListsAll(t.delivered[|start.delivered|..], if start.fast.hasCallback then plan.windows else [])
  }

  lemma BatchLists<O>(window: Window<O>, order: seq<int>)
    requires Coherent(window, order)
    ensures Lists(Batch(window, order), window)
  {
    var batch := Batch(window, order);
    forall ch | ch in window ensures exists i :: 0 <= i < |batch| && batch[i].ch == ch {
      var i :| 0 <= i < |order| && order[i] == ch;
      assert batch[i].ch == ch;
    }
  }

  lemma EmptyTogether<O>(window: Window<O>, order: seq<int>)
    requires Coherent(window, order)
    ensures window == map[] <==> order == []
  {
    if order != [] { assert order[0] in window; }
    if order == [] { assert forall ch :: ch !in window; }
  }

  lemma PushAsPlanned<O>(t: TimedState<O>, start: TimedState<O>, plan: Plan<O>, e: Timed<O>, windowSizeMs: nat,
                         channelCount: nat)
    requires Coherent(t.fast.window, t.fast.order) && AsPlanned(t, start, plan)
    requires Arrives(e, channelCount)
    ensures AsPlanned(TimedStep(t, e, windowSizeMs, channelCount), start,
                      Plan(plan.pending[e.frame.ch := e.frame],
                           if plan.pending == map[] then Some(e.steady + windowSizeMs) else plan.due, plan.windows))
  {
    EmptyTogether(t.fast.window, t.fast.order);
    var open := FastExpire(t.fast, e.now, windowSizeMs).0;
    assert open.order == t.fast.order && open.window == t.fast.window;
    assert t.delivered + [] == t.delivered;
  }

  lemma FlushAsPlanned<O>(t: TimedState<O>, start: TimedState<O>, plan: Plan<O>, e: Timed<O>, windowSizeMs: nat,
                          channelCount: nat)
    requires Coherent(t.fast.window, t.fast.order) && AsPlanned(t, start, plan) && !e.push && IsDue(plan.due, e.steady)
    ensures AsPlanned(TimedStep(t, e, windowSizeMs, channelCount), start,
                      Plan(map[], Some(e.steady + windowSizeMs), plan.windows + [plan.pending]))
  {
    BatchLists(t.fast.window, t.fast.order);
    var batch, after := Batch(t.fast.window, t.fast.order), TimedStep(t, e, windowSizeMs, channelCount);
    var n := |start.delivered|;
    if start.fast.hasCallback {
      assert after.delivered == t.delivered + [batch];
      assert after.delivered[n..] == t.delivered[n..] + [batch];
    } else {
      assert after.delivered == t.delivered;
    }
  }

  /** Over every timed run from an empty start each flush delivers, if there is a callback, one list of
      exactly the frames planned; nothing else is delivered, and without a callback nothing at all. */
  lemma {:induction false} DeliversAsPlanned<O>(start: TimedState<O>, events: seq<Timed<O>>, windowSizeMs: nat,
                                                channelCount: nat)
    requires StartedEmpty(start)
    ensures AsPlanned(TimedRun(start, events, windowSizeMs, channelCount), start,
                      Planned(events, windowSizeMs, channelCount))
  {
    if events == [] {
      assert start.delivered[|start.delivered|..] == [];
    } else {
      var n := |events| - 1;
      DeliversAsPlanned(start, events[..n], windowSizeMs, channelCount);
      var t := TimedRun(start, events[..n], windowSizeMs, channelCount);
      StepAsPlanned(t, start, Planned(events[..n], windowSizeMs, channelCount), events[n], windowSizeMs, channelCount);
    }
  }

  lemma StepAsPlanned<O>(t: TimedState<O>, start: TimedState<O>, plan: Plan<O>, e: Timed<O>, windowSizeMs: nat,
                         channelCount: nat)
    requires Coherent(t.fast.window, t.fast.order) && AsPlanned(t, start, plan)
    ensures AsPlanned(TimedStep(t, e, windowSizeMs, channelCount), start, NextPlan(plan, e, windowSizeMs, channelCount))
  {
    if Arrives(e, channelCount) {
      PushAsPlanned(t, start, plan, e, windowSizeMs, channelCount);
    } else if !e.push && IsDue(plan.due, e.steady) {
      FlushAsPlanned(t, start, plan, e, windowSizeMs, channelCount);
    } else {
      assert t.delivered + [] == t.delivered;
    }
  }

  // ---------- one push ----------

  /** The number of the window that is open after the first `n` events. */
  ghost function OpenWindow<O>(events: seq<Timed<O>>, n: nat, windowSizeMs: nat, channelCount: nat): nat
    requires n <= |events|
  {
    |Planned(events[..n], windowSizeMs, channelCount).windows|
  }

  /** The window holds the frame of event `i`, or one of its channel that came later in the same window. */
  ghost predicate Covers<O>(window: Window<O>, events: seq<Timed<O>>, i: nat, n: nat, windowSizeMs: nat,
                            channelCount: nat)
    requires i < n <= |events|
  {
    var ch := events[i].frame.ch;
    ch in window && exists j :: i <= j < n && Arrives(events[j], channelCount) && events[j].frame.ch == ch
                                && window[ch] == events[j].frame
                                && OpenWindow(events, j, windowSizeMs, channelCount)
                                  == OpenWindow(events, i, windowSizeMs, channelCount)
  }

  /** Every accepted frame is delivered with the flush of its window, or superseded there by a later one
      of its channel, or it or that one is still pending. */
  ghost predicate Accounted<O>(events: seq<Timed<O>>, i: nat, n: nat, windowSizeMs: nat, channelCount: nat)
    requires i < n <= |events|
  {
    var k, plan := OpenWindow(events, i, windowSizeMs, channelCount), Planned(events[..n], windowSizeMs, channelCount);
    if k < |plan.windows| then Covers(plan.windows[k], events, i, n, windowSizeMs, channelCount)
    else k == |plan.windows| && Covers(plan.pending, events, i, n, windowSizeMs, channelCount)
  }

  lemma {:induction false} EachPushIsAccounted<O>(events: seq<Timed<O>>, i: nat, n: nat, windowSizeMs: nat,
                                                  channelCount: nat)
    requires i < n <= |events| && Arrives(events[i], channelCount)
    ensures Accounted(events, i, n, windowSizeMs, channelCount)
    decreases n
  {
    assert events[..n][..n - 1] == events[..n - 1];
    if n > i + 1 {
      EachPushIsAccounted(events, i, n - 1, windowSizeMs, channelCount);
    }
  }
}
