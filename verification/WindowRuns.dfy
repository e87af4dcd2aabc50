/** Whole runs of the two aggregators: without its timer thread the fast form delivers
    what the simple form delivers, and with the timer every window is closed on time. */
module WindowRuns {
  import opened WindowAggregator

  datatype Event<O> = Push(frame: Frame<O>, now: int) | SetCallback(callback: bool)

  type SimpleTrace<O> = (Simple<O>, seq<Window<O>>)
  type FastTrace<O> = t: (Fast<O>, seq<seq<Frame<O>>>) | Coherent(t.0.window, t.0.order)
    ghost witness (Fast(map[], [], 0, false, None, false), [])

  function SimpleStep<O>(t: SimpleTrace<O>, e: Event<O>, windowSizeMs: nat): SimpleTrace<O> {
    match e
    case SetCallback(callback) => (t.0.(hasCallback := callback), t.1)
    case Push(frame, now) =>
      var (after, out) := SimplePush(t.0, frame, now, windowSizeMs);
      (after, if out.Some? then t.1 + [out.value] else t.1)
  }

  function SimpleRun<O>(events: seq<Event<O>>, windowSizeMs: nat): SimpleTrace<O> {
    if events == [] then (Simple(map[], 0, false), [])
    else SimpleStep(SimpleRun(events[..|events| - 1], windowSizeMs), events[|events| - 1], windowSizeMs)
  }

  /** The fast form, never started: the steady clock is not read. */
  ghost function FastStep<O>(t: FastTrace<O>, e: Event<O>, windowSizeMs: nat, channelCount: nat): FastTrace<O> {
    match e
    case SetCallback(callback) => (t.0.(hasCallback := callback), t.1)
    case Push(frame, now) =>
      var (after, out) := FastPush(t.0, frame, now, 0, windowSizeMs, channelCount);
      (after, if out.Some? then t.1 + [out.value] else t.1)
  }

  ghost function FastRun<O>(events: seq<Event<O>>, windowSizeMs: nat, channelCount: nat): FastTrace<O> {
    if events == [] then (Fast(map[], [], 0, false, None, false), [])
    else FastStep(FastRun(events[..|events| - 1], windowSizeMs, channelCount), events[|events| - 1],
                  windowSizeMs, channelCount)
  }

  predicate Kept<O>(e: Event<O>, channelCount: nat) {
    e.Push? ==> Accepted(e.frame, channelCount)
  }

  /** The run without the frames that the fast form rejects. */
  function Accepting<O>(events: seq<Event<O>>, channelCount: nat): (kept: seq<Event<O>>)
  {
    if events == [] then []
    else
      var e := events[|events| - 1];
      var before := Accepting(events[..|events| - 1], channelCount);
      if Kept(e, channelCount) then before + [e] else before
  }

  ghost predicate ClockNonDecreasing<O>(events: seq<Event<O>>) {
    && (forall i :: 0 <= i < |events| && events[i].Push? ==> 0 <= events[i].now < TWO_63)
    && (forall i, j :: 0 <= i < j < |events| && events[i].Push? && events[j].Push? ==> events[i].now <= events[j].now)
  }

  /** `batch` holds every frame of `window`, each exactly once. */
  ghost predicate Lists<O>(batch: seq<Frame<O>>, window: Window<O>) {
    && (forall i :: 0 <= i < |batch| ==> batch[i].ch in window && window[batch[i].ch] == batch[i])
    && (forall i, j :: 0 <= i < j < |batch| ==> batch[i].ch != batch[j].ch)
    && (forall ch :: ch in window ==> exists i :: 0 <= i < |batch| && batch[i].ch == ch)
  }

  ghost predicate SameState<O>(f: Fast<O>, s: Simple<O>) {
    f.window == s.latest && f.start == s.start && f.hasCallback == s.hasCallback && !f.running
  }

  ghost predicate SameDelivery<O>(batch: Option<seq<Frame<O>>>, window: Option<Window<O>>) {
    batch.Some? == window.Some? && (batch.Some? ==> Lists(batch.value, window.value))
  }

  ghost predicate Agree<O>(fast: FastTrace<O>, simple: SimpleTrace<O>) {
    && SameState(fast.0, simple.0) && |fast.1| == |simple.1|
    && (forall i :: 0 <= i < |fast.1| ==> Lists(fast.1[i], simple.1[i]))
  }

  lemma BatchLists<O>(window: Window<O>, order: seq<int>)
    requires Coherent(window, order)
    ensures Lists(Batch(window, order), window)
  {}

  lemma EmptyTogether<O>(window: Window<O>, order: seq<int>)
    requires Coherent(window, order)
    ensures window == map[] <==> order == []
  {
    if order != [] {
      assert order[0] in window;
    }
    if order == [] {
      assert forall ch :: ch !in window;
    }
  }

  lemma StepAgrees<O>(f: FastTrace<O>, s: SimpleTrace<O>, e: Event<O>, windowSizeMs: nat, channelCount: nat)
    requires Agree(f, s) && windowSizeMs < TWO_63
    requires e.Push? ==> s.0.latest == map[] || 0 <= s.0.start <= e.now < TWO_63
    ensures Agree(FastStep(f, e, windowSizeMs, channelCount),
                  if Kept(e, channelCount) then SimpleStep(s, e, windowSizeMs) else s)
  {
    if e.Push? && Kept(e, channelCount) {
      PushAgrees(f.0, s.0, e.frame, e.now, windowSizeMs, channelCount);
    }
  }

  lemma PushAgrees<O>(f: Fast<O>, s: Simple<O>, frame: Frame<O>, now: int, windowSizeMs: nat, channelCount: nat)
    requires Coherent(f.window, f.order) && SameState(f, s) && Accepted(frame, channelCount)
    requires windowSizeMs < TWO_63 && (s.latest == map[] || 0 <= s.start <= now < TWO_63)
    ensures var (f', batch), (s', window) :=
      FastPush(f, frame, now, 0, windowSizeMs, channelCount), SimplePush(s, frame, now, windowSizeMs);
            SameState(f', s') && SameDelivery(batch, window)
  {
    EmptyTogether(f.window, f.order);
    ClosingTestsAgree(now - if s.latest == map[] then now else s.start, windowSizeMs);
    ExpireAgrees(f, s, now, windowSizeMs);
    assert map[][frame.ch := frame] == map[frame.ch := frame];
  }

  lemma ExpireAgrees<O>(f: Fast<O>, s: Simple<O>, now: int, windowSizeMs: nat)
    requires Coherent(f.window, f.order) && SameState(f, s) && (f.order == [] <==> s.latest == map[])
    ensures var start := if s.latest == map[] then now else s.start;
            var closes := FastCloses(now - start, windowSizeMs);
            var (open, batch) := FastExpire(f, now, windowSizeMs);
            && open.window == (if closes then map[] else s.latest) && open.start == (if closes then now else start)
            && open.hasCallback == s.hasCallback && !open.running
            && SameDelivery(batch, if closes && s.latest != map[] && s.hasCallback then Some(s.latest) else None)
  {
    BatchLists(f.window, f.order);
  }

  /** A push before the start of the pending window: the simple form closes its window, because
      its unsigned difference wraps, and the fast form does not. */
  lemma StepBackDisagrees<O>(f: FastTrace<O>, s: SimpleTrace<O>, e: Event<O>, windowSizeMs: nat, channelCount: nat)
    requires Agree(f, s) && windowSizeMs < TWO_63 && e.Push? && Kept(e, channelCount)
    requires s.0.latest != map[] && 0 <= e.now < s.0.start < TWO_63
    ensures var fast, simple := FastStep(f, e, windowSizeMs, channelCount), SimpleStep(s, e, windowSizeMs);
            && fast.0.start > simple.0.start
            && |simple.1| == |fast.1| + if s.0.hasCallback then 1 else 0
  {
    EmptyTogether(f.0.window, f.0.order);
    ClosingTestsAgree(e.now - s.0.start, windowSizeMs);
  }

  lemma {:induction false} StartIsAPushTime<O>(events: seq<Event<O>>, windowSizeMs: nat)
    ensures var s := SimpleRun(events, windowSizeMs).0;
            s.latest == map[] || exists i :: 0 <= i < |events| && events[i].Push? && events[i].now == s.start
  {
    if events != [] {
      var n := |events| - 1;
      StartIsAPushTime(events[..n], windowSizeMs);
      var before, s := SimpleRun(events[..n], windowSizeMs).0, SimpleRun(events, windowSizeMs).0;
      if s.latest != map[] && before.latest != map[] && s.start == before.start {
        var i :| 0 <= i < n && events[..n][i].Push? && events[..n][i].now == before.start;
        assert events[i].Push?;
      } else if s.latest != map[] {
        assert events[n].Push?;
      }
    }
  }

  lemma RunStep<O>(events: seq<Event<O>>, e: Event<O>, windowSizeMs: nat, channelCount: nat)
    ensures SimpleRun(events + [e], windowSizeMs) == SimpleStep(SimpleRun(events, windowSizeMs), e, windowSizeMs)
    ensures FastRun(events + [e], windowSizeMs, channelCount)
         == FastStep(FastRun(events, windowSizeMs, channelCount), e, windowSizeMs, channelCount)
    ensures Accepting(events + [e], channelCount)
         == if Kept(e, channelCount) then Accepting(events, channelCount) + [e] else Accepting(events, channelCount)
  {
    assert (events + [e])[..|events|] == events;
  }

  /** Clock values of the pushes. */
  ghost predicate InRange<O>(events: seq<Event<O>>) {
    forall i :: 0 <= i < |events| && events[i].Push? ==> 0 <= events[i].now < TWO_63
  }

  /** What the simple form holds before event `n`. */
  function Pending<O>(events: seq<Event<O>>, n: nat, windowSizeMs: nat, channelCount: nat): Simple<O>
    requires n <= |events|
  {
    SimpleRun(Accepting(events[..n], channelCount), windowSizeMs).0
  }

  /** Event `n` is an accepted push earlier than the start of the window then pending. */
  predicate StepsBack<O>(events: seq<Event<O>>, n: nat, windowSizeMs: nat, channelCount: nat)
    requires n < |events|
  {
    var e, s := events[n], Pending(events, n, windowSizeMs, channelCount);
    e.Push? && Kept(e, channelCount) && s.latest != map[] && e.now < s.start
  }

  ghost predicate AgreeAfter<O>(events: seq<Event<O>>, n: nat, windowSizeMs: nat, channelCount: nat)
    requires n <= |events|
  {
    Agree(FastRun(events[..n], windowSizeMs, channelCount),
          SimpleRun(Accepting(events[..n], channelCount), windowSizeMs))
  }

  /** A pending window started with an earlier push. */
  lemma StartedByPush<O>(events: seq<Event<O>>, n: nat, windowSizeMs: nat, channelCount: nat) returns (j: nat)
    requires n <= |events| && Pending(events, n, windowSizeMs, channelCount).latest != map[]
    ensures j < n && events[j].Push? && events[j].now == Pending(events, n, windowSizeMs, channelCount).start
  {
    var kept := Accepting(events[..n], channelCount);
    StartIsAPushTime(kept, windowSizeMs);
    AcceptedAreEvents(events[..n], channelCount);
    var i :| 0 <= i < |kept| && kept[i].Push? && kept[i].now == SimpleRun(kept, windowSizeMs).0.start;
    assert kept[i] in events[..n];
    j :| 0 <= j < n && events[j] == kept[i];
  }

  /** One more event keeps the agreement exactly if it does not step back. */
  lemma AgreeOneMore<O>(events: seq<Event<O>>, n: nat, windowSizeMs: nat, channelCount: nat)
    requires n < |events| && InRange(events) && windowSizeMs < TWO_63
    requires AgreeAfter(events, n, windowSizeMs, channelCount)
    ensures AgreeAfter(events, n + 1, windowSizeMs, channelCount) <==> !StepsBack(events, n, windowSizeMs, channelCount)
  {
    var before, e := events[..n], events[n];
    assert before + [e] == events[..n + 1];
    RunStep(before, e, windowSizeMs, channelCount);
    RunStep(Accepting(before, channelCount), e, windowSizeMs, channelCount);
    if Pending(events, n, windowSizeMs, channelCount).latest != map[] {
      var j := StartedByPush(events, n, windowSizeMs, channelCount);
    }
    var fast, simple :=
      FastRun(before, windowSizeMs, channelCount), SimpleRun(Accepting(before, channelCount), windowSizeMs);
    if StepsBack(events, n, windowSizeMs, channelCount) {
      StepBackDisagrees(fast, simple, e, windowSizeMs, channelCount);
    } else if Kept(e, channelCount) {
      StepAgrees(fast, simple, e, windowSizeMs, channelCount);
    }
  }

  lemma {:induction false} AgreeWithoutStepBack<O>(events: seq<Event<O>>, n: nat, windowSizeMs: nat, channelCount: nat)
    requires n <= |events| && InRange(events) && windowSizeMs < TWO_63
    requires forall k :: 0 <= k < n ==> !StepsBack(events, k, windowSizeMs, channelCount)
    ensures AgreeAfter(events, n, windowSizeMs, channelCount)
  {
    if n > 0 {
      AgreeWithoutStepBack(events, n - 1, windowSizeMs, channelCount);
      AgreeOneMore(events, n - 1, windowSizeMs, channelCount);
    }
  }

  /** The two forms agree all the way through a run if and only if no accepted push comes earlier
      than the start of the window pending at that moment. The clock may go back otherwise. */
  lemma AgreesExactly<O>(events: seq<Event<O>>, windowSizeMs: nat, channelCount: nat)
    requires InRange(events) && windowSizeMs < TWO_63
    ensures (forall n :: 0 <= n <= |events| ==> AgreeAfter(events, n, windowSizeMs, channelCount))
       <==> (forall n :: 0 <= n < |events| ==> !StepsBack(events, n, windowSizeMs, channelCount))
  {
    if forall n :: 0 <= n <= |events| ==> AgreeAfter(events, n, windowSizeMs, channelCount) {
      forall n | 0 <= n < |events| ensures !StepsBack(events, n, windowSizeMs, channelCount) {
        assert AgreeAfter(events, n, windowSizeMs, channelCount)
               && AgreeAfter(events, n + 1, windowSizeMs, channelCount);
        AgreeOneMore(events, n, windowSizeMs, channelCount);
      }
    }
    if forall n :: 0 <= n < |events| ==> !StepsBack(events, n, windowSizeMs, channelCount) {
      forall n | 0 <= n <= |events| ensures AgreeAfter(events, n, windowSizeMs, channelCount) {
        AgreeWithoutStepBack(events, n, windowSizeMs, channelCount);
      }
    }
  }

  lemma NoStepBack<O>(events: seq<Event<O>>, n: nat, windowSizeMs: nat, channelCount: nat)
    requires ClockNonDecreasing(events) && n < |events|
    ensures !StepsBack(events, n, windowSizeMs, channelCount)
  {
    if events[n].Push? && Pending(events, n, windowSizeMs, channelCount).latest != map[] {
      var j := StartedByPush(events, n, windowSizeMs, channelCount);
    }
  }

  /** For every sequence of pushes and callback changes on a non-decreasing clock, the fast
      form delivers, window by window, the channel-to-frame map that the simple form
      delivers for the accepted frames, whatever stale frames its recycled buffers hold. */
  lemma FastRefinesSimple<O>(events: seq<Event<O>>, windowSizeMs: nat, channelCount: nat)
    requires ClockNonDecreasing(events) && windowSizeMs < TWO_63
    ensures Agree(FastRun(events, windowSizeMs, channelCount),
                  SimpleRun(Accepting(events, channelCount), windowSizeMs))
  {
    forall n | 0 <= n < |events| ensures !StepsBack(events, n, windowSizeMs, channelCount) {
      NoStepBack(events, n, windowSizeMs, channelCount);
    }
    AgreeWithoutStepBack(events, |events|, windowSizeMs, channelCount);
    assert events[..|events|] == events;
  }

  lemma {:induction false} AcceptedAreEvents<O>(events: seq<Event<O>>, channelCount: nat)
    ensures forall e :: e in Accepting(events, channelCount) ==> e in events
  {
    if events != [] {
      AcceptedAreEvents(events[..|events| - 1], channelCount);
    }
  }

  /** A clock that goes back breaks the agreement: the simple form closes its window at
      once, because its unsigned difference wraps. */
  lemma ClockGoingBack(a: Frame<int>, b: Frame<int>)
    requires a.ch == 0 && b.ch == 1 && |a.objects| == |b.objects| == 0
    ensures var events := [SetCallback(true), Push(a, 1000), Push(b, 999)];
            |SimpleRun(events, 100).1| == 1 && |FastRun(events, 100, 4).1| == 0
  {
    var events := [SetCallback(true), Push(a, 1000), Push(b, 999)];
    var one: seq<Event<int>> := [SetCallback(true)];
    assert events == one + [Push(a, 1000)] + [Push(b, 999)] && one == [] + [SetCallback(true)];
    RunStep<int>([], SetCallback(true), 100, 4);
    RunStep(one, Push(a, 1000), 100, 4);
    RunStep(one + [Push(a, 1000)], Push(b, 999), 100, 4);
    assert (-1) % TWO_64 >= 100;
    assert a.ch in map[][a.ch := a];
  }

  // ---------- with the timer ----------

  datatype Timed<O> = Timed(push: bool, frame: Frame<O>, now: int, steady: int)

  /** The state, the steady time of the push that opened the window, and the deliveries. */
  datatype TimedState<O> = TimedState(fast: Fast<O>, firstPush: int, delivered: seq<seq<Frame<O>>>)

  /** A push, or a chance for the flush thread to act, which it takes once the deadline is past. */
  ghost function TimedStep<O>(t: TimedState<O>, e: Timed<O>, windowSizeMs: nat, channelCount: nat): (r: TimedState<O>)
    requires Coherent(t.fast.window, t.fast.order)
    ensures Coherent(r.fast.window, r.fast.order)
  {
    if e.push then
      var (after, out) := FastPush(t.fast, e.frame, e.now, e.steady, windowSizeMs, channelCount);
      TimedState(after,
                 if t.fast.order == [] && after.order != [] then e.steady else t.firstPush,
                 t.delivered + if out.Some? then [out.value] else [])
    else if t.fast.running && t.fast.deadline.Some? && e.steady >= t.fast.deadline.value then
      var (after, out) := FastFlush(t.fast, e.now, e.steady, windowSizeMs);
      TimedState(after, t.firstPush, t.delivered + if out.Some? then [out.value] else [])
    else t
  }

  ghost function TimedRun<O>(t: TimedState<O>, events: seq<Timed<O>>, windowSizeMs: nat, channelCount: nat)
    : (r: TimedState<O>)
    requires Coherent(t.fast.window, t.fast.order)
    ensures Coherent(r.fast.window, r.fast.order)
  {
    if events == [] then t
    else TimedStep(TimedRun(t, events[..|events| - 1], windowSizeMs, channelCount),
                   events[|events| - 1], windowSizeMs, channelCount)
  }

  /** A pending window will be flushed exactly one window size after its first push. */
  ghost predicate OnTime<O>(t: TimedState<O>, windowSizeMs: nat) {
    t.fast.order != [] ==> t.fast.deadline == Some(t.firstPush + windowSizeMs)
  }

  lemma StepStaysOnTime<O>(t: TimedState<O>, e: Timed<O>, windowSizeMs: nat, channelCount: nat)
    requires Coherent(t.fast.window, t.fast.order) && t.fast.running && OnTime(t, windowSizeMs)
    ensures var r := TimedStep(t, e, windowSizeMs, channelCount);
            r.fast.running && OnTime(r, windowSizeMs)
  {
    if e.push && Accepted(e.frame, channelCount) {
      assert FastExpire(t.fast, e.now, windowSizeMs).0.order == t.fast.order;
    }
  }

  lemma {:induction false} StartedEmptyStaysOnTime<O>(t: TimedState<O>, events: seq<Timed<O>>,
                                                      windowSizeMs: nat, channelCount: nat)
    requires Coherent(t.fast.window, t.fast.order) && t.fast.running && t.fast.order == []
    ensures var r := TimedRun(t, events, windowSizeMs, channelCount);
            r.fast.running && OnTime(r, windowSizeMs)
  {
    if events != [] {
      var before := events[..|events| - 1];
      StartedEmptyStaysOnTime(t, before, windowSizeMs, channelCount);
      StepStaysOnTime(TimedRun(t, before, windowSizeMs, channelCount), events[|events| - 1], windowSizeMs,
                      channelCount);
    }
  }

  /** A window that is pending at `start` is never delivered, nor anything after it: the timer is never
      armed for it, and pushes no longer close it. */
  lemma {:induction false} StartedPendingStalls<O>(t: TimedState<O>, events: seq<Timed<O>>,
                                                   windowSizeMs: nat, channelCount: nat)
    requires Coherent(t.fast.window, t.fast.order)
    requires t.fast.running && t.fast.order != [] && t.fast.deadline == None
    ensures var r := TimedRun(t, events, windowSizeMs, channelCount);
            && r.fast.running && r.fast.deadline == None && r.delivered == t.delivered
            && t.fast.order <= r.fast.order
  {
    if events != [] {
      StartedPendingStalls(t, events[..|events| - 1], windowSizeMs, channelCount);
    }
  }

  lemma {:induction false} BeforeStart<O>(events: seq<Event<O>>, windowSizeMs: nat, channelCount: nat)
    ensures var f := FastRun(events, windowSizeMs, channelCount).0; !f.running && f.deadline == None
  {
    if events != [] { BeforeStart(events[..|events| - 1], windowSizeMs, channelCount); }
  }

  /** `start` on what a run of pushes has left behind. */
  ghost function Started<O>(events: seq<Event<O>>, windowSizeMs: nat, channelCount: nat): (t: TimedState<O>)
    ensures Coherent(t.fast.window, t.fast.order)
  {
    var (f, delivered) := FastRun(events, windowSizeMs, channelCount);
    TimedState(f.(running := true), 0, delivered)
  }

  /** Whatever was pushed before, an accepted frame right before `start` leaves such a window: nothing
      is delivered any more. */
  lemma PushedBeforeStartStalls<O>(events: seq<Event<O>>, frame: Frame<O>, now: int, timed: seq<Timed<O>>,
                                   windowSizeMs: nat, channelCount: nat)
    requires Accepted(frame, channelCount)
    ensures var t := Started(events + [Push(frame, now)], windowSizeMs, channelCount);
            TimedRun(t, timed, windowSizeMs, channelCount).delivered == t.delivered
  {
    var all := events + [Push(frame, now)];
    assert all[..|all| - 1] == events;
    BeforeStart(all, windowSizeMs, channelCount);
    StartedPendingStalls(Started(all, windowSizeMs, channelCount), timed, windowSizeMs, channelCount);
  }

  /** A freshly started aggregator is on time in every run exactly when no frame was pending
      at the start. */
  lemma OnTimeIffStartedEmpty<O>(t: TimedState<O>, windowSizeMs: nat, channelCount: nat)
    requires Coherent(t.fast.window, t.fast.order) && t.fast.running && t.fast.deadline == None
    ensures (forall events :: OnTime(TimedRun(t, events, windowSizeMs, channelCount), windowSizeMs))
       <==> t.fast.order == []
  {
    if t.fast.order == [] {
      forall events: seq<Timed<O>>
        ensures OnTime(TimedRun(t, events, windowSizeMs, channelCount), windowSizeMs)
      {
        StartedEmptyStaysOnTime(t, events, windowSizeMs, channelCount);
      }
    } else {
      assert TimedRun(t, [], windowSizeMs, channelCount) == t;
      assert !OnTime(TimedRun(t, [], windowSizeMs, channelCount), windowSizeMs);
    }
  }
}
