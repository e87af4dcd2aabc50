/** Every call of `send` is accounted for exactly once, and frames are published in the
    order in which they were sent. */
module MqttAccounts {
  import opened MqttProtocol
  import opened MqttWakeup

  function Count(q: seq<nat>, f: nat): nat {
    if q == [] then 0 else (if q[0] == f then 1 else 0) + Count(q[1..], f)
  }

  lemma {:induction false} CountConcat(a: seq<nat>, b: seq<nat>, f: nat)
    ensures Count(a + b, f) == Count(a, f) + Count(b, f)
  {
    if a == [] {
      assert a + b == b;
    } else {
      assert (a + b)[1..] == a[1..] + b;
      CountConcat(a[1..], b, f);
    }
  }

  function InPipeline(pc: PipelinePc): seq<nat> {
    match pc
    case PReady(f) => [f]
    case PWant(f) => [f]
    case PHold(f) => [f]
    case _ => []
  }

  /** The frame being published and the superseded ones not yet counted. */
  function InWorker(pc: WorkerPc): seq<nat> {
    match pc
    case WCount(f, superseded) => superseded + [f]
    case WSerialize(f) => [f]
    case WWantClient(f) => [f]
    case WHoldClient(f) => [f]
    case _ => []
  }

  /** How often the frame of call `f` is published, dropped, queued or in hand. */
  function Places(sink: Sink, pipeline: PipelinePc, worker: WorkerPc, f: nat): nat {
    Count(sink.published, f) + Count(sink.dropped, f) + Count(sink.queue, f)
    + Count(InPipeline(pipeline), f) + Count(InWorker(worker), f)
  }

  /** Each call is in exactly one place. */
  ghost predicate Accounted(s: State) {
    forall f: nat :: Places(s.sink, s.pipeline, s.worker, f) == if f < s.sink.calls then 1 else 0
  }

  lemma EnqueueConserves(queue: seq<nat>, g: nat, maxQueueSize: nat, f: nat)
    ensures var (after, oldest) := Enqueue(queue, g, maxQueueSize);
            Count(after, f) + Count(oldest, f) == Count(queue, f) + Count([g], f)
  {
    if |queue| >= Clamped(maxQueueSize) {
      CountConcat(queue[1..], [g], f);
    } else {
      CountConcat(queue, [g], f);
    }
  }

  lemma PipelinePlaces(s: State, choice: bool, f: nat)
    ensures Places(PipelineData(s, choice), PipelineControl(s, choice), s.worker, f)
         == Places(s.sink, s.pipeline, s.worker, f) + if s.pipeline.PIdle? && f == s.sink.calls then 1 else 0
  {
    match s.pipeline
    case PIdle => CountConcat(s.sink.dropped, [s.sink.calls], f);
    case PReady(g) => CountConcat(s.sink.dropped, [g], f);
    case PHold(g) =>
      CountConcat(s.sink.dropped, [g], f);
      EnqueueConserves(s.sink.queue, g, s.sink.maxQueueSize, f);
      CountConcat(s.sink.dropped, Enqueue(s.sink.queue, g, s.sink.maxQueueSize).1, f);
    case _ =>
  }

  lemma CountFirst(dropped: seq<nat>, superseded: seq<nat>, g: nat, f: nat)
    requires superseded != []
    ensures Count(dropped + [superseded[0]], f) + Count(superseded[1..] + [g], f)
      == Count(dropped, f) + Count(superseded + [g], f)
  {
    CountConcat(dropped, [superseded[0]], f);
    assert superseded + [g] == [superseded[0]] + (superseded[1..] + [g]);
    CountConcat([superseded[0]], superseded[1..] + [g], f);
  }

  lemma WorkerPlaces(s: State, choice: bool, f: nat)
    requires s.worker.WTrue? ==> s.sink.stopping || s.sink.queue != []
    ensures Places(WorkerData(s, choice), s.pipeline, WorkerControl(s, choice), f)
         == Places(s.sink, s.pipeline, s.worker, f)
  {
    match s.worker
    case WTrue =>
      if !s.sink.stopping {
        var q := s.sink.queue;
        assert q == q[..|q| - 1] + [q[|q| - 1]];
      }
    case WCount(g, superseded) =>
      if superseded != [] {
        CountFirst(s.sink.dropped, superseded, g, f);
      } else {
        assert superseded + [g] == [g];
      }
    case WSerialize(g) => CountConcat(s.sink.dropped, [g], f);
    case WHoldClient(g) =>
      CountConcat(s.sink.dropped, [g], f);
      CountConcat(s.sink.published, [g], f);
    case _ =>
  }

  lemma MainPlaces(pc: MainPc, sink: Sink, pipeline: PipelinePc, worker: WorkerPc, f: nat)
    ensures Places(MainSinkData(pc, sink), pipeline, MainToWorker(pc, worker), f) == Places(sink, pipeline, worker, f)
         || (pc.OSpawn? && !worker.WUnborn?)
  {
    CountConcat(sink.dropped, sink.queue, f);
  }

  lemma PipelineAccounts(s: State, choice: bool)
    requires Accounted(s)
    ensures Accounted(PipelineNext(s, choice))
  {
    var s' := PipelineNext(s, choice);
    forall f: nat
      ensures Places(s'.sink, s'.pipeline, s'.worker, f) == if f < s'.sink.calls then 1 else 0
    {
      PipelinePlaces(s, choice, f);
    }
  }

  lemma WorkerAccounts(s: State, choice: bool)
    requires Accounted(s) && LifeSound(s)
    ensures Accounted(WorkerNext(s, choice))
  {
    var s' := WorkerNext(s, choice);
    forall f: nat
      ensures Places(s'.sink, s'.pipeline, s'.worker, f) == if f < s'.sink.calls then 1 else 0
    {
      WorkerPlaces(s, choice, f);
    }
  }

  lemma MainAccounts(s: State, choice: bool)
    requires Accounted(s) && LifeSound(s)
    ensures Accounted(MainNext(s, choice))
  {
    var s' := MainNext(s, choice);
    forall f: nat
      ensures Places(s'.sink, s'.pipeline, s'.worker, f) == if f < s'.sink.calls then 1 else 0
    {
      MainPlaces(s.main, s.sink, s.pipeline, s.worker, f);
    }
  }

  lemma OtherAccounts(s: State, step: Step)
    requires Accounted(s) && Enabled(s, step) && !step.Call?
    requires step.Run? ==> step.t == Network || step.t == Retry
    ensures Accounted(Next(s, step))
  {
    var s' := Next(s, step);
    assert InWorker(s'.worker) == InWorker(s.worker);
    forall f: nat
      ensures Places(s'.sink, s'.pipeline, s'.worker, f) == if f < s'.sink.calls then 1 else 0
    {
      assert Places(s'.sink, s'.pipeline, s'.worker, f) == Places(s.sink, s.pipeline, s.worker, f);
    }
  }

  lemma StepKeepsAccounts(s: State, step: Step)
    requires Accounted(s) && LifeSound(s) && Enabled(s, step)
    ensures Accounted(Next(s, step))
  {
    match step
    case Run(t, choice) =>
      match t {
        case Pipeline => PipelineAccounts(s, choice);
        case Worker => WorkerAccounts(s, choice);
        case Main => MainAccounts(s, choice);
        case _ => OtherAccounts(s, step); }
    case Call(valid) => PipelineAccounts(s, valid);
    case _ => OtherAccounts(s, step);
  }

  // ---------- order ----------

  ghost predicate Ascending(q: seq<nat>) {
    forall i, j :: 0 <= i < j < |q| ==> q[i] < q[j]
  }

  ghost predicate AllBelow(q: seq<nat>, bound: nat) {
    forall i :: 0 <= i < |q| ==> q[i] < bound
  }

  ghost predicate AllAbove(q: seq<nat>, bound: nat) {
    forall i :: 0 <= i < |q| ==> bound < q[i]
  }

  /** The newest frame the worker has taken, published or not. */
  function WorkerFrame(pc: WorkerPc): (f: int) {
    match pc
    case WCount(f, _) => f
    case WSerialize(f) => f
    case WWantClient(f) => f
    case WHoldClient(f) => f
    case _ => -1
  }

  function PipelineFrame(pc: PipelinePc): (f: int) {
    match pc
    case PReady(f) => f
    case PWant(f) => f
    case PHold(f) => f
    case _ => -1
  }

  /** Published frames are older than the worker's, those than the queue's, those than the
      frame in `send`. */
  ghost predicate Ordered(s: State) {
    var w, p := WorkerFrame(s.worker), PipelineFrame(s.pipeline);
    && Ascending(s.sink.published) && Ascending(s.sink.queue)
    && (w >= 0 ==> AllBelow(s.sink.published, w) && AllAbove(s.sink.queue, w) && w < s.sink.calls)
    && (forall i :: 0 <= i < |s.sink.queue| ==> AllBelow(s.sink.published, s.sink.queue[i]))
    && AllBelow(s.sink.published, s.sink.calls) && AllBelow(s.sink.queue, s.sink.calls)
    && (p >= 0 ==> p == s.sink.calls - 1
                   && AllBelow(s.sink.queue, p) && AllBelow(s.sink.published, p) && w < p)
  }

  lemma StaysOrdered(s: State, s': State)
    requires Ordered(s) && s'.sink.published == s.sink.published && s'.sink.queue == s.sink.queue
    requires s'.sink.calls == s.sink.calls
    requires WorkerFrame(s'.worker) == -1 || WorkerFrame(s'.worker) == WorkerFrame(s.worker)
    requires PipelineFrame(s'.pipeline) == -1 || PipelineFrame(s'.pipeline) == PipelineFrame(s.pipeline)
    ensures Ordered(s')
  {}

  lemma EnqueueOrder(queue: seq<nat>, f: nat, maxQueueSize: nat)
    requires Ascending(queue) && AllBelow(queue, f)
    ensures var after := Enqueue(queue, f, maxQueueSize).0;
            Ascending(after) && forall i :: 0 <= i < |after| ==> after[i] in queue || after[i] == f
  {}

  lemma PipelineOrder(s: State, choice: bool)
    requires Ordered(s)
    ensures Ordered(PipelineNext(s, choice))
  {
    assert WorkerFrame(PipelineNext(s, choice).worker) == WorkerFrame(s.worker);
    match s.pipeline
    case PHold(f) => EnqueueOrder(s.sink.queue, f, s.sink.maxQueueSize);
    case PIdle =>
    case _ => StaysOrdered(s, PipelineNext(s, choice));
  }

  lemma WorkerOrder(s: State, choice: bool)
    requires Ordered(s) && (s.worker.WTrue? ==> s.sink.stopping || s.sink.queue != [])
    ensures Ordered(WorkerNext(s, choice))
  {
    match s.worker
    case WTrue => TakeOrder(s, choice);
    case WHoldClient(f) => PublishOrder(s, choice);
    case _ => StaysOrdered(s, WorkerNext(s, choice));
  }

  lemma TakeOrder(s: State, choice: bool)
    requires Ordered(s) && s.worker.WTrue? && (s.sink.stopping || s.sink.queue != [])
    ensures Ordered(WorkerNext(s, choice))
  {
    if !s.sink.stopping {
      var f := s.sink.queue[|s.sink.queue| - 1];
      assert AllBelow(s.sink.published, f);
    }
  }

  lemma PublishOrder(s: State, choice: bool)
    requires Ordered(s) && s.worker.WHoldClient?
    ensures Ordered(WorkerNext(s, choice))
  {
    var s' := WorkerNext(s, choice);
    assert s'.sink.published == s.sink.published || s'.sink.published == s.sink.published + [s.worker.f];
  }

  lemma MainOrder(s: State, choice: bool)
    requires Ordered(s) && LifeSound(s)
    ensures Ordered(MainNext(s, choice))
  {
    assert WorkerFrame(MainNext(s, choice).worker) == WorkerFrame(s.worker);
  }

  lemma StepKeepsOrder(s: State, step: Step)
    requires Ordered(s) && LifeSound(s) && Enabled(s, step)
    ensures Ordered(Next(s, step))
  {
    match step
    case Run(t, choice) =>
      match t {
        case Pipeline => PipelineOrder(s, choice);
        case Worker => WorkerOrder(s, choice);
        case Main => MainOrder(s, choice);
        case _ => }
    case Call(valid) => PipelineOrder(s, valid);
    case _ =>
  }
}
