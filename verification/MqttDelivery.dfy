/** Which frames are published and which are lost: the only step that publishes, the eight reasons for
    a drop, and that a frame sent over a working connection does go out. */
module MqttDelivery {
  import opened MqttProtocol
  import opened MqttAccounts
  import opened MqttTheorems
  import opened MqttProgress

  // ---------- the fate of a frame ----------

  /** The transport's client takes the frame in the worker's hands. */
  predicate Publishes(s: State, step: Step, f: nat) {
    step == Run(Worker, true) && s.worker == WHoldClient(f) && s.transport.client
  }

  predicate IsInvalid(s: State, step: Step, f: nat) { step == Call(false) && f == s.sink.calls }

  predicate FindsTransportNotReady(s: State, step: Step, f: nat) {
    step.Run? && step.t == Pipeline && s.pipeline == PReady(f) && !s.transport.ready
  }

  predicate IsRefused(s: State, step: Step, f: nat) {
    step.Run? && step.t == Pipeline && s.pipeline == PHold(f) && s.sink.stopping
  }

  predicate IsOldestOfFull(s: State, step: Step, f: nat) {
    && step.Run? && step.t == Pipeline && s.pipeline.PHold? && !s.sink.stopping
    && s.sink.queue != [] && |s.sink.queue| >= s.sink.maxQueueSize && f == s.sink.queue[0]
  }

  predicate IsDrained(s: State, step: Step, f: nat) {
    step.Run? && step.t == Main && s.main.ODrainHold? && f in s.sink.queue
  }

  predicate IsSuperseded(s: State, step: Step, f: nat) {
    step.Run? && step.t == Worker && s.worker.WCount? && s.worker.superseded != [] && f == s.worker.superseded[0]
  }

  predicate FailsToSerialize(s: State, step: Step, f: nat) {
    step == Run(Worker, false) && s.worker == WSerialize(f)
  }

  predicate FailsToPublish(s: State, step: Step, f: nat) {
    step.Run? && step.t == Worker && s.worker == WHoldClient(f) && !(s.transport.client && step.choice)
  }

  predicate Discards(s: State, step: Step, f: nat) {
    || IsInvalid(s, step, f) || FindsTransportNotReady(s, step, f) || IsRefused(s, step, f)
    || IsOldestOfFull(s, step, f) || IsDrained(s, step, f) || IsSuperseded(s, step, f)
    || FailsToSerialize(s, step, f) || FailsToPublish(s, step, f)
  }

  /** From `before` to `after` the lists of published and dropped frames change as they should for `f`. */
  predicate PublishesOnly(before: Sink, after: Sink, f: nat, publishes: bool) {
    && before.published <= after.published && |after.published| <= |before.published| + 1
    && (publishes <==> after.published == before.published + [f])
    && (publishes ==> after.dropped == before.dropped)
  }

  lemma WorkerPublishes(s: State, choice: bool, f: nat)
    ensures PublishesOnly(s.sink, WorkerData(s, choice), f, Publishes(s, Run(Worker, choice), f))
  {
    if s.worker.WHoldClient? {
      var p, g := s.sink.published, s.worker.f;
      assert (p + [g])[|p|] == g && (p + [f])[|p|] == f;
    }
  }

  lemma PublishedKept(before: Sink, after: Sink, f: nat)
    requires after.published == before.published
    ensures PublishesOnly(before, after, f, false)
  {}

  /** One step lengthens the published list exactly by the frame it publishes. */
  lemma StepPublishes(s: State, step: Step, f: nat)
    requires Enabled(s, step)
    ensures PublishesOnly(s.sink, Next(s, step).sink, f, Publishes(s, step, f))
  {
    if step.Run? && step.t == Worker {
      WorkerPublishes(s, step.choice, f);
    } else {
      PublishedKept(s.sink, Next(s, step).sink, f);
    }
  }

  lemma PipelineDrops(s: State, choice: bool, f: nat)
    ensures var before, after := s.sink.dropped, PipelineNext(s, choice).sink.dropped;
            before <= after && (f in after[|before|..] <==>
              || (s.pipeline.PIdle? && !choice && f == s.sink.calls)
              || Discards(s, Run(Pipeline, choice), f))
  {
    match s.pipeline
    case PIdle => OneAdded(s.sink.dropped, s.sink.calls);
    case PReady(g) => OneAdded(s.sink.dropped, g);
    case PHold(g) =>
      OneAdded(s.sink.dropped, g);
      if s.sink.queue != [] { OneAdded(s.sink.dropped, s.sink.queue[0]); }
    case _ =>
  }

  lemma OneAdded(before: seq<nat>, g: nat)
    ensures (before + [g])[|before|..] == [g] && before + [] == before && before[|before|..] == []
  {}

  lemma WorkerDrops(s: State, choice: bool, f: nat)
    ensures var before, after := s.sink.dropped, WorkerNext(s, choice).sink.dropped;
            before <= after && (f in after[|before|..] <==> Discards(s, Run(Worker, choice), f))
  {
    match s.worker
    case WCount(_, superseded) => if superseded != [] { OneAdded(s.sink.dropped, superseded[0]); }
    case WSerialize(g) => OneAdded(s.sink.dropped, g);
    case WHoldClient(g) => OneAdded(s.sink.dropped, g);
    case _ =>
  }

  lemma MainDrops(s: State, choice: bool, f: nat)
    ensures var before, after := s.sink.dropped, MainNext(s, choice).sink.dropped;
            before <= after && (f in after[|before|..] <==> Discards(s, Run(Main, choice), f))
  {}

  /** One step adds a frame to the dropped ones exactly for one of the eight reasons. */
  lemma StepDrops(s: State, step: Step, f: nat)
    requires Enabled(s, step)
    ensures var before, after := s.sink.dropped, Next(s, step).sink.dropped;
            before <= after && (f in after[|before|..] <==> Discards(s, step, f))
  {
    match step
    case Run(t, choice) =>
      match t {
        case Pipeline => PipelineDrops(s, choice, f);
        case Worker => WorkerDrops(s, choice, f);
        case Main => MainDrops(s, choice, f);
        case _ => }
    case Call(valid) => PipelineDrops(s, valid, f);
    case _ =>
  }

  lemma Longer(before: seq<nat>, after: seq<nat>, f: nat)
    requires before <= after
    ensures f in after <==> f in before || f in after[|before|..]
  {
    assert after == before + after[|before|..];
  }

  lemma {:induction false} OnceDoneStaysDone(done: seq<bool>, does: seq<bool>, n: nat)
    requires n < |done| == |does| + 1 && !done[0]
    requires forall i :: 0 <= i < |does| ==> (done[i + 1] <==> done[i] || does[i])
    ensures done[n] <==> exists i :: 0 <= i < n && does[i]
  {
    if n > 0 { OnceDoneStaysDone(done, does, n - 1); }
  }

  /** In every behaviour a call is published exactly if some step publishes it. */
  lemma PublishedExactly(states: seq<State>, steps: seq<Step>, n: nat, f: nat)
    requires Behaviour(states, steps) && n < |states|
    ensures f in states[n].sink.published <==> exists i :: 0 <= i < n && Publishes(states[i], steps[i], f)
  {
    var done := seq(|states|, i requires 0 <= i < |states| => f in states[i].sink.published);
    var does := seq(|steps|, i requires 0 <= i < |steps| => Publishes(states[i], steps[i], f));
    forall i | 0 <= i < |steps| ensures done[i + 1] <==> done[i] || does[i] { FateAt(states, steps, i, f); }
    OnceDoneStaysDone(done, does, n);
    assert forall i :: 0 <= i < n ==> does[i] == Publishes(states[i], steps[i], f);
  }

  /** And dropped exactly if some step drops it for one of the eight reasons. */
  lemma DroppedExactly(states: seq<State>, steps: seq<Step>, n: nat, f: nat)
    requires Behaviour(states, steps) && n < |states|
    ensures f in states[n].sink.dropped <==> exists i :: 0 <= i < n && Discards(states[i], steps[i], f)
  {
    var done := seq(|states|, i requires 0 <= i < |states| => f in states[i].sink.dropped);
    var does := seq(|steps|, i requires 0 <= i < |steps| => Discards(states[i], steps[i], f));
    forall i | 0 <= i < |steps| ensures done[i + 1] <==> done[i] || does[i] { FateAt(states, steps, i, f); }
    OnceDoneStaysDone(done, does, n);
    assert forall i :: 0 <= i < n ==> does[i] == Discards(states[i], steps[i], f);
  }

  lemma FateAt(states: seq<State>, steps: seq<Step>, i: nat, f: nat)
    requires Behaviour(states, steps) && i < |steps|
    ensures f in states[i + 1].sink.published <==> f in states[i].sink.published || Publishes(states[i], steps[i], f)
    ensures f in states[i + 1].sink.dropped <==> f in states[i].sink.dropped || Discards(states[i], steps[i], f)
  {
    FateOfStep(states[i], steps[i], f);
  }

  lemma FateOfStep(s: State, step: Step, f: nat)
    requires Enabled(s, step)
    ensures f in Next(s, step).sink.published <==> f in s.sink.published || Publishes(s, step, f)
    ensures f in Next(s, step).sink.dropped <==> f in s.sink.dropped || Discards(s, step, f)
  {
    StepPublishes(s, step, f);
    StepDrops(s, step, f);
    Longer(s.sink.published, Next(s, step).sink.published, f);
    Longer(s.sink.dropped, Next(s, step).sink.dropped, f);
    OnlyOneMore(s.sink.published, Next(s, step).sink.published, f);
  }

  lemma OnlyOneMore(before: seq<nat>, after: seq<nat>, f: nat)
    requires before <= after && |after| <= |before| + 1
    ensures f in after[|before|..] <==> after == before + [f]
  {
    if |after| > |before| { assert after == before + [after[|before|]]; }
  }

  // ---------- a working connection delivers ----------

  /** Connected, with a client, and not shutting down. */
  predicate Working(s: State) {
    s.transport.connected && s.transport.client && !s.sink.stopping
  }

  predicate Alive(w: WorkerPc) { !w.WUnborn? && !w.WDone? }

  /** A thread's step for which the library gives the answer yes. */
  predicate Granted(step: Step) { step.Run? && step.choice }

  predicate IsLast(queue: seq<nat>, f: nat) { queue != [] && queue[|queue| - 1] == f }

  /** `send` is not about to bring another frame. */
  predicate Quiet(s: State) { s.pipeline.PIdle? || s.pipeline.PNotify? }

  ghost predicate IsComing(s: State, g: nat) {
    IsLast(s.sink.queue, g) || WorkerFrame(s.worker) == g || g in s.sink.published
  }

  /** Frame `f`, or if `send` may be at work a newer one, is last in the queue, in the worker's hands or
      published. */
  ghost predicate Coming(s: State, f: nat, quiet: bool) {
    Alive(s.worker) && (quiet ==> Quiet(s)) && exists g: nat :: g >= f && (quiet ==> g == f) && IsComing(s, g)
  }

  lemma WorkerKeepsComing(s: State, g: nat)
    requires Sound(s) && Working(s) && Alive(s.worker) && IsComing(s, g)
    ensures Alive(WorkerNext(s, true).worker) && IsComing(WorkerNext(s, true), g)
  {
    if s.worker.WHoldClient? { assert s.worker.f in WorkerNext(s, true).sink.published; }
  }

  lemma PipelineKeepsComing(s: State, g: nat) returns (g': nat)
    requires Sound(s) && Working(s) && IsComing(s, g) && !s.pipeline.PIdle?
    ensures g' >= g && (Quiet(s) ==> g' == g && Quiet(PipelineNext(s, true)))
    ensures IsComing(PipelineNext(s, true), g')
  {
    g' := g;
    if s.pipeline.PHold? && IsLast(s.sink.queue, g) { g' := s.pipeline.f; }
  }

  lemma StaysComing(s: State, step: Step, f: nat, quiet: bool)
    requires Sound(s) && Enabled(s, step) && Granted(step) && Working(s) && Coming(s, f, quiet)
    requires Working(Next(s, step))
    ensures Coming(Next(s, step), f, quiet)
  {
    var s' := Next(s, step);
    var g: nat :| g >= f && (quiet ==> g == f) && IsComing(s, g);
    match step.t
    case Worker => WorkerKeepsComing(s, g);
    case Pipeline =>
      var g' := PipelineKeepsComing(s, g);
      assert IsComing(s', g');
    case _ =>
      assert s'.sink.published == s.sink.published && s'.sink.queue == s.sink.queue;
      assert IsComing(s', g);
  }

  lemma ComingAt(states: seq<State>, steps: seq<Step>, i: nat, f: nat, quiet: bool)
    requires Behaviour(states, steps) && i < |steps| && Granted(steps[i]) && Working(states[i])
    requires Working(states[i + 1]) && Coming(states[i], f, quiet)
    ensures Coming(states[i + 1], f, quiet)
  {
    AlwaysSound(states, steps, i);
    StaysComing(states[i], steps[i], f, quiet);
  }

  lemma {:induction false} StaysTrueBetween(holds: seq<bool>, n: nat, m: nat)
    requires n <= m < |holds| && holds[n] && forall i :: n <= i < m && holds[i] ==> holds[i + 1]
    ensures holds[m]
    decreases m - n
  {
    if n < m { StaysTrueBetween(holds, n, m - 1); }
  }

  /** Over a connection that stays up, with a library that never says no, whatever the threads do: once
      they have come to rest the newest queued frame is published, or, if `send` was at work, a newer
      one in its place. */
  lemma NewestIsPublished(states: seq<State>, steps: seq<Step>, n: nat, m: nat)
    requires Behaviour(states, steps) && n <= m < |states| && AtRest(states[m])
    requires forall i :: n <= i < m ==> Granted(steps[i])
    requires forall i :: n <= i <= m ==> Working(states[i])
    requires Alive(states[n].worker) && states[n].sink.queue != []
    ensures var newest := states[n].sink.queue[|states[n].sink.queue| - 1];
            exists g :: g in states[m].sink.published && g >= newest && (Quiet(states[n]) ==> g == newest)
  {
    var f, quiet := states[n].sink.queue[|states[n].sink.queue| - 1], Quiet(states[n]);
    var coming := seq(|states|, i requires 0 <= i < |states| => Coming(states[i], f, quiet));
    assert IsComing(states[n], f);
    forall i | n <= i < m && coming[i] ensures coming[i + 1] {
      assert Granted(steps[i]) && Working(states[i]) && Working(states[i + 1]);
      ComingAt(states, steps, i, f, quiet);
    }
    StaysTrueBetween(coming, n, m);
    RestMeansServed(states, steps, m);
    assert !Active(states[m], Worker) && Working(states[m]);
  }

  // ---------- without a connection frames wait ----------

  predicate Parked(w: WorkerPc) { w.WUnborn? || w.WWant? || w.WCheck? || w.WFalse? || w.WAsleep? }

  /** Neither connected nor shutting down, with the worker before its take. */
  predicate Waiting(s: State) { !s.transport.connected && !s.sink.stopping && Parked(s.worker) }

  lemma StaysParked(s: State, step: Step)
    requires Enabled(s, step) && Waiting(s)
    ensures Parked(Next(s, step).worker) && Next(s, step).sink.published == s.sink.published
  {}

  lemma StaysQueued(s: State, step: Step, f: nat)
    requires Enabled(s, step) && Waiting(s) && !Next(s, step).sink.stopping && f in s.sink.queue
    ensures f in Next(s, step).sink.queue || IsOldestOfFull(s, step, f)
  {}

  /** Since state `n` nothing was taken from the queue; `f` is there, unless a full queue has pushed it out. */
  ghost predicate Kept(states: seq<State>, steps: seq<Step>, n: nat, m: nat, f: nat)
    requires n <= m < |states| == |steps| + 1
  {
    && Parked(states[m].worker) && states[m].sink.published == states[n].sink.published
    && (f in states[m].sink.queue || exists i :: n <= i < m && IsOldestOfFull(states[i], steps[i], f))
  }

  lemma KeptAt(states: seq<State>, steps: seq<Step>, n: nat, i: nat, f: nat)
    requires Behaviour(states, steps) && n <= i < |steps| && Kept(states, steps, n, i, f)
    requires !states[i].transport.connected && !states[i].sink.stopping && !states[i + 1].sink.stopping
    ensures Kept(states, steps, n, i + 1, f)
  {
    StaysParked(states[i], steps[i]);
    if f in states[i].sink.queue { StaysQueued(states[i], steps[i], f); }
  }

  /** Until there is a connection queued frames wait. */
  lemma QueuedUntilConnected(states: seq<State>, steps: seq<Step>, n: nat, m: nat, f: nat)
    requires Behaviour(states, steps) && n <= m < |states| && Parked(states[n].worker) && f in states[n].sink.queue
    requires forall i :: n <= i <= m ==> !states[i].transport.connected && !states[i].sink.stopping
    ensures Kept(states, steps, n, m, f)
  {
    var kept := seq(|states|, i requires 0 <= i < |states| => n <= i && Kept(states, steps, n, i, f));
    forall i | n <= i < m && kept[i] ensures kept[i + 1] { KeptAt(states, steps, n, i, f); }
    StaysTrueBetween(kept, n, m);
  }

  // ---------- an ordinary run ----------

  const SINK := Sink(8, [], false, false, true, 0, [], [])
  const NO_TRANSPORT := Transport(false, false, false, false, false, false, false, false, 0, 0)
  const TRANSPORT := Transport(false, true, true, true, false, false, true, true, 1, 0)

  const CONSTRUCTED := State(PIdle, WUnborn, NIdle, OIdle, RUnborn, SINK.(registered := false), NO_TRANSPORT)
  const SINK_BORN := CONSTRUCTED.(worker := WWant, sink := SINK)
  const SINK_STARTED := CONSTRUCTED.(worker := WAsleep, sink := SINK)
  const CREATING := SINK_STARTED.(main := OStartInit(ICreate),
                                  transport := NO_TRANSPORT.(libraryAcquired := true, libraryUp := true, refs := 1))
  const LOOPING := CREATING.(main := OStartInit(ILoop), transport := CREATING.transport.(client := true))
  const TRANSPORT_STARTED := SINK_STARTED.(transport := TRANSPORT)
  const CONNECTED := SINK_STARTED.(worker := WWant, transport := TRANSPORT.(connected := true))
  const TELLING := CONNECTED.(network := NHoldListener, worker := WAsleep)
  const SENDING := CONNECTED.(pipeline := PHold(0), sink := SINK.(calls := 1))
  const SENT := CONNECTED.(sink := SINK.(calls := 1, queue := [0]))
  const TAKEN := CONNECTED.(worker := WCount(0, []), sink := SINK.(calls := 1))
  const PUBLISHED := CONNECTED.(sink := SINK.(calls := 1, published := [0]))

  ghost predicate Ends(states: seq<State>, steps: seq<Step>, s: State) {
    Behaviour(states, steps) && states[|steps|] == s
  }

  lemma OneMore(states: seq<State>, steps: seq<Step>, s: State, step: Step)
    returns (longer: seq<State>, more: seq<Step>)
    requires Ends(states, steps, s) && Enabled(s, step)
    ensures Ends(longer, more, Next(s, step)) && longer[0] == states[0]
  {
    longer, more := states + [Next(s, step)], steps + [step];
  }

  /** `n` steps of one thread. */
  lemma {:induction false} Steps(states: seq<State>, steps: seq<Step>, s: State, t: Thread, n: nat, end: State)
    returns (longer: seq<State>, more: seq<Step>)
    requires Ends(states, steps, s) && Leads(s, t, n, end)
    ensures Ends(longer, more, end) && longer[0] == states[0]
    decreases n
  {
    if n == 0 {
      longer, more := states, steps;
    } else {
      longer, more := OneMore(states, steps, s, Run(t, true));
      longer, more := Steps(longer, more, Next(s, Run(t, true)), t, n - 1, end);
    }
  }

  predicate Leads(s: State, t: Thread, n: nat, end: State)
    decreases n
  {
    if n == 0 then s == end else Enabled(s, Run(t, true)) && Leads(Next(s, Run(t, true)), t, n - 1, end)
  }

  lemma SinkStarts()
    ensures Leads(Next(CONSTRUCTED, SinkStart), Main, 3, SINK_BORN)
  {}

  lemma WorkerFallsAsleep()
    ensures Leads(SINK_BORN, Worker, 3, SINK_STARTED)
  {}

  lemma InitialisationBegins()
    ensures Leads(Next(SINK_STARTED, TransportStart), Main, 2, SINK_STARTED.(main := OStartInit(IConfig)))
  {}

  lemma LibraryIsAcquired()
    ensures Leads(SINK_STARTED.(main := OStartInit(IConfig)), Main, 3, CREATING)
  {}

  lemma ClientIsCreated()
    ensures Leads(CREATING, Main, 3, LOOPING)
  {}

  lemma LoopIsStarted()
    ensures Leads(LOOPING, Main, 3, TRANSPORT_STARTED)
  {}

  lemma ConnectionIsTaken()
    ensures Leads(Next(TRANSPORT_STARTED, Connect(true)), Network, 3, TELLING)
  {}

  lemma QueueIsLocked()
    ensures Leads(TELLING, Network, 2, TELLING.(network := NHoldQueue))
  {}

  lemma WorkerIsNotified()
    ensures Leads(TELLING.(network := NHoldQueue), Network, 2, CONNECTED)
  {}

  lemma CallIsReady()
    ensures Leads(Next(CONNECTED, Call(true)), Pipeline, 2, SENDING)
  {}

  lemma CallReturns()
    ensures Leads(SENDING, Pipeline, 2, SENT)
  {}

  lemma FrameIsTaken()
    ensures Leads(SENT, Worker, 3, TAKEN)
  {}

  lemma FrameIsSerialized()
    ensures Leads(TAKEN, Worker, 2, TAKEN.(worker := WWantClient(0)))
  {}

  lemma FrameIsHandedOver()
    ensures Leads(TAKEN.(worker := WWantClient(0)), Worker, 2, PUBLISHED)
  {}

  lemma TransportStarts(states: seq<State>, steps: seq<Step>) returns (longer: seq<State>, more: seq<Step>)
    requires Ends(states, steps, SINK_STARTED)
    ensures Ends(longer, more, TRANSPORT_STARTED) && longer[0] == states[0]
  {
    InitialisationBegins();
    longer, more := OneMore(states, steps, SINK_STARTED, TransportStart);
    longer, more := Steps(longer, more, Next(SINK_STARTED, TransportStart), Main, 2,
                          SINK_STARTED.(main := OStartInit(IConfig)));
    LibraryIsAcquired();
    longer, more := Steps(longer, more, SINK_STARTED.(main := OStartInit(IConfig)), Main, 3, CREATING);
    ClientIsCreated();
    longer, more := Steps(longer, more, CREATING, Main, 3, LOOPING);
    LoopIsStarted();
    longer, more := Steps(longer, more, LOOPING, Main, 3, TRANSPORT_STARTED);
  }

  /** So there is a behaviour that starts with new objects and publishes the first frame sent. */
  lemma FirstFrameGoesOut() returns (states: seq<State>, steps: seq<Step>)
    ensures Behaviour(states, steps) && states[0] == CONSTRUCTED
    ensures states[|steps|].sink == SINK.(calls := 1, published := [0])
  {
    states, steps := [CONSTRUCTED], [];
    SinkStarts();
    states, steps := OneMore(states, steps, CONSTRUCTED, SinkStart);
    states, steps := Steps(states, steps, Next(CONSTRUCTED, SinkStart), Main, 3, SINK_BORN);
    WorkerFallsAsleep();
    states, steps := Steps(states, steps, SINK_BORN, Worker, 3, SINK_STARTED);
    states, steps := TransportStarts(states, steps);
    states, steps := ConnectionIsMade(states, steps);
    states, steps := FrameIsSent(states, steps);
  }

  lemma ConnectionIsMade(states: seq<State>, steps: seq<Step>) returns (longer: seq<State>, more: seq<Step>)
    requires Ends(states, steps, TRANSPORT_STARTED)
    ensures Ends(longer, more, CONNECTED) && longer[0] == states[0]
  {
    ConnectionIsTaken();
    longer, more := OneMore(states, steps, TRANSPORT_STARTED, Connect(true));
    longer, more := Steps(longer, more, Next(TRANSPORT_STARTED, Connect(true)), Network, 3, TELLING);
    QueueIsLocked();
    longer, more := Steps(longer, more, TELLING, Network, 2, TELLING.(network := NHoldQueue));
    WorkerIsNotified();
    longer, more := Steps(longer, more, TELLING.(network := NHoldQueue), Network, 2, CONNECTED);
  }

  lemma FrameIsSent(states: seq<State>, steps: seq<Step>) returns (longer: seq<State>, more: seq<Step>)
    requires Ends(states, steps, CONNECTED)
    ensures Ends(longer, more, PUBLISHED) && longer[0] == states[0]
  {
    CallIsReady();
    longer, more := OneMore(states, steps, CONNECTED, Call(true));
    longer, more := Steps(longer, more, Next(CONNECTED, Call(true)), Pipeline, 2, SENDING);
    CallReturns();
    longer, more := Steps(longer, more, SENDING, Pipeline, 2, SENT);
    FrameIsTaken();
    longer, more := Steps(longer, more, SENT, Worker, 3, TAKEN);
    FrameIsSerialized();
    longer, more := Steps(longer, more, TAKEN, Worker, 2, TAKEN.(worker := WWantClient(0)));
    FrameIsHandedOver();
    longer, more := Steps(longer, more, TAKEN.(worker := WWantClient(0)), Worker, 2, PUBLISHED);
  }
}
