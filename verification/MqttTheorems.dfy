/** What holds in every state that any interleaving of the publishing protocol reaches. */
module MqttTheorems {
  import opened MqttProtocol
  import opened MqttLocks
  import opened MqttWakeup
  import opened MqttAccounts
  import opened MqttTransportLife

  // ---------- totals and the end of `shutdown` ----------

  /** The published and dropped counters balance the calls. */
  predicate Balanced(s: State) {
    |s.sink.published| + |s.sink.dropped| + |s.sink.queue| + |InPipeline(s.pipeline)| + |InWorker(s.worker)|
      == s.sink.calls
  }

  /** `shutdown` returns only after the worker has ended. */
  predicate Joined(s: State) {
    s.sink.stopping && !s.main.ONotify? && !s.main.OJoinWorker? ==> Ended(s, Worker)
  }

  lemma PipelineBalance(s: State, choice: bool)
    requires Balanced(s)
    ensures Balanced(PipelineNext(s, choice))
  {
    assert InWorker(PipelineNext(s, choice).worker) == InWorker(s.worker);
  }

  lemma WorkerBalance(s: State, choice: bool)
    requires Balanced(s) && LifeSound(s)
    ensures Balanced(WorkerNext(s, choice))
  {}

  lemma MainBalance(s: State, choice: bool)
    requires Balanced(s) && LifeSound(s)
    ensures Balanced(MainNext(s, choice))
  {
    assert InWorker(MainNext(s, choice).worker) == InWorker(s.worker);
  }

  lemma OtherBalance(s: State, step: Step)
    requires Balanced(s) && Enabled(s, step) && !step.Call?
    requires step.Run? ==> step.t == Network || step.t == Retry
    ensures Balanced(Next(s, step))
  {
    assert InWorker(Next(s, step).worker) == InWorker(s.worker);
  }

  lemma StepKeepsBalance(s: State, step: Step)
    requires Balanced(s) && LifeSound(s) && Enabled(s, step)
    ensures Balanced(Next(s, step))
  {
    match step
    case Run(t, choice) =>
      match t {
        case Pipeline => PipelineBalance(s, choice);
        case Worker => WorkerBalance(s, choice);
        case Main => MainBalance(s, choice);
        case _ => OtherBalance(s, step); }
    case Call(valid) => PipelineBalance(s, valid);
    case _ => OtherBalance(s, step);
  }

  /** The queue never outgrows its configured size. */
  predicate QueueBounded(s: State) { |s.sink.queue| <= Clamped(s.sink.maxQueueSize) }

  lemma StepKeepsBound(s: State, step: Step)
    requires QueueBounded(s) && Enabled(s, step)
    ensures QueueBounded(Next(s, step))
  {
    match step
    case Run(t, choice) =>
      match t {
        case Pipeline => PipelineBound(s, choice);
        case Worker => WorkerBound(s, choice);
        case Main => MainBound(s.main, s.sink);
        case _ => assert Next(s, step).sink == s.sink; }
    case Call(valid) => PipelineBound(s, valid);
    case _ => assert Next(s, step).sink.queue == s.sink.queue;
  }

  lemma PipelineBound(s: State, choice: bool)
    requires QueueBounded(s)
    ensures QueueBounded(PipelineNext(s, choice))
  {}

  lemma WorkerBound(s: State, choice: bool)
    requires QueueBounded(s)
    ensures QueueBounded(WorkerNext(s, choice))
  {}

  lemma MainBound(pc: MainPc, sink: Sink)
    ensures |MainSinkData(pc, sink).queue| <= |sink.queue| && MainSinkData(pc, sink).maxQueueSize == sink.maxQueueSize
  {}

  lemma StepKeepsJoined(s: State, step: Step)
    requires Joined(s) && LifeSound(s) && Enabled(s, step)
    ensures Joined(Next(s, step))
  {}

  // ---------- the invariant ----------

  ghost predicate Sound(s: State) {
    && Exclusive(s) && LifeSound(s) && WakeSound(s) && Accounted(s) && Ordered(s)
    && TransportSound(s) && Balanced(s) && Joined(s) && QueueBounded(s)
  }

  lemma InitIsSound(s: State)
    requires Init(s)
    ensures Sound(s)
  {}

  lemma StepKeepsSound(s: State, step: Step)
    requires Sound(s) && Enabled(s, step)
    ensures Sound(Next(s, step))
  {
    StepStaysExclusive(s, step);
    StepKeepsLife(s, step);
    StepKeepsWake(s, step);
    StepKeepsAccounts(s, step);
    StepKeepsOrder(s, step);
    StepKeepsTransport(s, step);
    StepKeepsBalance(s, step);
    StepKeepsJoined(s, step);
    StepKeepsBound(s, step);
  }

  lemma {:induction false} AlwaysSound(states: seq<State>, steps: seq<Step>, n: nat)
    requires Behaviour(states, steps) && n < |states|
    ensures Sound(states[n])
  {
    if n == 0 {
      InitIsSound(states[0]);
    } else {
      AlwaysSound(states, steps, n - 1);
      StepKeepsSound(states[n - 1], steps[n - 1]);
    }
  }

  // ---------- wake-ups ----------

  /** No lost wake-up, in every interleaving: a worker that sleeps, or has decided to, while
      its condition holds is owed a notification, and one that comes after it is asleep. */
  lemma NoLostWakeup(states: seq<State>, steps: seq<Step>, n: nat)
    requires Behaviour(states, steps) && n < |states|
    ensures var s := states[n];
            WakeCondition(s.sink, s.transport.connected) ==>
              (s.worker.WAsleep? ==> Owes(s)) && (s.worker.WFalse? ==> OwesAfterLock(s))
  {
    AlwaysSound(states, steps, n);
  }

  /** When all threads have come to rest, no live worker is left with work that is due and no
      retry thread sleeps through `stop`. */
  lemma RestMeansServed(states: seq<State>, steps: seq<Step>, n: nat)
    requires Behaviour(states, steps) && n < |states|
    requires forall t: Thread :: !Active(states[n], t)
    ensures var s := states[n];
            && (s.worker.WAsleep? ==> !s.sink.stopping && (s.transport.connected ==> s.sink.queue == []))
            && (s.retry.RAsleep? ==> !s.transport.halting)
  {
    AlwaysSound(states, steps, n);
    assert !Active(states[n], Pipeline) && !Active(states[n], Network) && !Active(states[n], Main);
  }

  // ---------- progress ----------

  /** The thread somebody waits for is at work, and waits, if at all, for a mutex of higher rank. */
  lemma BlockerIsActive(s: State, t: Thread)
    requires Sound(s) && Blocked(s, t)
    ensures Active(s, BlockedBy(s, t))
    ensures Blocked(s, BlockedBy(s, t)) ==> WaitRank(Waits(s, t)) < WaitRank(Waits(s, BlockedBy(s, t))) <= 5
  {
    match Waits(s, t)
    case Lock(m) => HolderIsActive(s, m);
    case Join(u) =>
  }

  lemma HolderIsActive(s: State, m: Mutex)
    requires Sound(s) && Taken(s, m)
    ensures var u := HolderOf(s, m); Active(s, u)
    ensures var u := HolderOf(s, m); Blocked(s, u) ==> Rank(m) < WaitRank(Waits(s, u)) <= 5
  {
    var u := HolderOf(s, m);
    match Waits(s, u)
    case Lock(wanted) => AcquiresInOrder(s, u, wanted, m);
    case Join(v) =>
    case Nothing =>
  }

  /** The end of the chain of threads that `t` waits for: it can take a step. So no set of
      threads ever waits for each other, and some active thread can always move. */
  ghost function Unblocker(s: State, t: Thread): (u: Thread)
    requires Sound(s) && Active(s, t)
    ensures Active(s, u) && !Blocked(s, u)
    ensures Enabled(s, Run(u, true))
    decreases if Blocked(s, t) then 5 - WaitRank(Waits(s, t)) else -1
  {
    if Blocked(s, t) then BlockerIsActive(s, t); Unblocker(s, BlockedBy(s, t)) else t
  }

  lemma NoDeadlock(states: seq<State>, steps: seq<Step>, n: nat, t: Thread)
    requires Behaviour(states, steps) && n < |states| && Active(states[n], t)
    ensures exists u: Thread :: Enabled(states[n], Run(u, true))
  {
    AlwaysSound(states, steps, n);
    var u := Unblocker(states[n], t);
  }

  lemma MutualExclusion(states: seq<State>, steps: seq<Step>, n: nat, m: Mutex, t: Thread, u: Thread)
    requires Behaviour(states, steps) && n < |states| && Holds(states[n], t, m) && Holds(states[n], u, m)
    ensures t == u
  {
    AlwaysSound(states, steps, n);
  }

  // ---------- frames ----------

  /** Each call of `send` is in exactly one place: published, dropped, queued, or in the hands
      of the pipeline or the worker. */
  lemma EveryCallAccounted(states: seq<State>, steps: seq<Step>, n: nat, f: nat)
    requires Behaviour(states, steps) && n < |states|
    ensures Places(states[n].sink, states[n].pipeline, states[n].worker, f) == if f < states[n].sink.calls then 1 else 0
    ensures Balanced(states[n])
  {
    AlwaysSound(states, steps, n);
  }

  /** Once `shutdown` has returned, every call is published or dropped, but for one still inside `send`. */
  lemma ShutdownAccountsForAll(states: seq<State>, steps: seq<Step>, n: nat, f: nat)
    requires Behaviour(states, steps) && n < |states| && f < states[n].sink.calls
    requires states[n].sink.stopping && !states[n].main.ONotify? && !states[n].main.OJoinWorker?
    ensures var s := states[n];
            && Count(s.sink.published, f) + Count(s.sink.dropped, f) + Count(InPipeline(s.pipeline), f) == 1
            && (s.pipeline.PIdle? ==> |s.sink.published| + |s.sink.dropped| == s.sink.calls)
  {
    AlwaysSound(states, steps, n);
    assert Places(states[n].sink, states[n].pipeline, states[n].worker, f) == 1;
  }

  /** At any moment at most the configured number of frames, or one, is queued. */
  lemma QueueStaysBounded(states: seq<State>, steps: seq<Step>, n: nat)
    requires Behaviour(states, steps) && n < |states|
    ensures |states[n].sink.queue| <= if states[n].sink.maxQueueSize < 1 then 1 else states[n].sink.maxQueueSize
    ensures states[n].sink.maxQueueSize == states[0].sink.maxQueueSize
  {
    AlwaysSound(states, steps, n);
    SizeIsKept(states, steps, n);
  }

  lemma {:induction false} SizeIsKept(states: seq<State>, steps: seq<Step>, n: nat)
    requires Behaviour(states, steps) && n < |states|
    ensures states[n].sink.maxQueueSize == states[0].sink.maxQueueSize
  {
    if n > 0 {
      SizeIsKept(states, steps, n - 1);
      StepKeepsSize(states[n - 1], steps[n - 1]);
    }
  }

  lemma StepKeepsSize(s: State, step: Step)
    requires Enabled(s, step)
    ensures Next(s, step).sink.maxQueueSize == s.sink.maxQueueSize
  {}

  /** Frames go out in the order of the calls, never twice. */
  lemma PublishedInOrder(states: seq<State>, steps: seq<Step>, n: nat, i: nat, j: nat)
    requires Behaviour(states, steps) && n < |states| && i < j < |states[n].sink.published|
    ensures states[n].sink.published[i] < states[n].sink.published[j]
  {
    AlwaysSound(states, steps, n);
  }

  /** Latency coalescing: the frame taken is the newest queued, newer than all published, and
      the queue is left empty with the rest marked as superseded. */
  lemma TakeIsNewest(states: seq<State>, steps: seq<Step>, n: nat, choice: bool)
    requires Behaviour(states, steps) && n < |states| && states[n].worker.WTrue? && !states[n].sink.stopping
    ensures var s, s' := states[n], WorkerNext(states[n], choice);
            && s'.worker.WCount? && s'.sink.queue == []
            && s'.worker.superseded + [s'.worker.f] == s.sink.queue
            && AllBelow(s'.worker.superseded, s'.worker.f) && AllBelow(s.sink.published, s'.worker.f)
  {
    AlwaysSound(states, steps, n);
  }

  // ---------- the transport ----------

  /** The library stays initialised as long as a client or its loop exists, whatever the other
      transports do, and is cleaned up by the last user only. */
  lemma LibraryOutlivesClient(states: seq<State>, steps: seq<Step>, n: nat)
    requires Behaviour(states, steps) && n < |states|
    ensures var t := states[n].transport;
            && (t.client || t.loopRunning || t.otherRefs > 0 ==> t.libraryUp)
            && (t.libraryUp ==> t.libraryAcquired || t.otherRefs > 0)
  {
    AlwaysSound(states, steps, n);
  }

  /** After `stop` the transport is down and stays down: no client, loop, flag or library
      reference is left and no retry brings one back. */
  lemma HaltedStaysDown(states: seq<State>, steps: seq<Step>, n: nat, later: nat)
    requires Behaviour(states, steps) && n <= later < |states| && states[n].transport.halted
    ensures Down(states[later].transport) && RetryEnded(states[later].retry) && states[later].network.NIdle?
  {
    HaltedIsKept(states, steps, n, later);
    AlwaysSound(states, steps, later);
  }

  lemma HaltedIsKept(states: seq<State>, steps: seq<Step>, n: nat, later: nat)
    requires Behaviour(states, steps) && n <= later < |states| && states[n].transport.halted
    ensures states[later].transport.halted
  {
    var halted := seq(|states|, i requires 0 <= i < |states| => states[i].transport.halted);
    forall i | 0 <= i < |steps| && halted[i] ensures halted[i + 1] { HaltedAt(states, steps, i); }
    StaysTrue(halted, n, later);
  }

  lemma {:induction false} StaysTrue(f: seq<bool>, n: nat, m: nat)
    requires n <= m < |f| && f[n] && forall i :: 0 <= i < |f| - 1 && f[i] ==> f[i + 1]
    ensures f[m]
    decreases m - n
  {
    if n < m { StaysTrue(f, n, m - 1); }
  }

  lemma HaltedAt(states: seq<State>, steps: seq<Step>, i: nat)
    requires Behaviour(states, steps) && i < |steps| && states[i].transport.halted
    ensures states[i + 1].transport.halted
  {
    AlwaysSound(states, steps, i);
    StepKeepsHalted(states[i], steps[i]);
  }

  lemma StepKeepsHalted(s: State, step: Step)
    requires Sound(s) && Enabled(s, step) && s.transport.halted
    ensures Next(s, step).transport.halted
  {
    if step.Run? && step.t.Main? {
      assert Elsewhere(s.main) || s.main.OStopNotify?;
    }
  }
}
