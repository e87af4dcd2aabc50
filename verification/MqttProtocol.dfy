/** One publishing sink on the shared MQTT transport (compute-server MqttFrameSink and
    MqttTransport) as a transition system: five threads take atomic steps in any order.

    Every mutex acquisition, condition-variable wait, atomic store and join of the source
    is a step of its own; a program counter names the next one. A mutex is held by the
    threads whose counter lies between its lock and its unlock, and a lock step is enabled
    only when nobody holds it. Frames are the serial numbers of the calls of `send`. */
module MqttProtocol {

  datatype Mutex = RetryMutex | LibraryMutex | ClientMutex | ListenerMutex | QueueMutex
  datatype Thread = Pipeline | Worker | Network | Main | Retry

  // ---------- program counters; Want.. is before a lock, Hold.. inside it ----------

  /** The pipeline thread in `send`. */
  datatype PipelinePc = PIdle | PReady(f: nat) | PWant(f: nat) | PHold(f: nat) | PNotify

  /** The sink's worker. `WFalse` has found its predicate false and is about to sleep. */
  datatype WorkerPc = WUnborn | WWant | WCheck | WFalse | WAsleep | WTrue
    | WCount(f: nat, superseded: seq<nat>) | WSerialize(f: nat) | WWantClient(f: nat) | WHoldClient(f: nat) | WDone

  /** The network loop in `onConnect` and `onDisconnect`. */
  datatype NetworkPc = NIdle | NWantClient | NHoldClient
    | NWantListener | NHoldListener | NWantQueue | NHoldQueue | NNotify

  /** `destroyClient`. */
  datatype DestroyPc =
    DWantClient | DHoldClient | DJoin | DNotReady | DNotConnected | DWantLibrary | DHoldLibrary | DEnd

  /** `initializeClient`. */
  datatype InitPc = IConfig | IWantLibrary | IHoldLibrary | ICreate | IWantClient | IHoldClient | ILoop | IReady
    | IFail(d: DestroyPc) | IDone(success: bool)

  /** The thread that owns sink and transport: it starts and stops both. */
  datatype MainPc = OIdle
    | OAddWant | OAddHold | OSpawn
    | ORemoveWant | ORemoveHold | ODrainWant | ODrainHold | ONotify | OJoinWorker
    | OStartWant | OStartHold | OStartInit(i: InitPc)
    | OStopWant | OStopHold | OStopNotify | OJoinRetry | OFarewellTest | OFarewellWant | OFarewellHold
    | ODestroy(d: DestroyPc)
    | OTellWant | OTellHold | OTellWantQueue | OTellHoldQueue | OTellNotify

  /** The background reconnection thread. */
  datatype RetryPc = RUnborn | RWant | RTest | RFalse | RAsleep | RWake | RHoldWake
    | RInit(i: InitPc) | RAgainWant(success: bool) | RAgainHold(success: bool) | RDone

  datatype Sink = Sink(
    maxQueueSize: nat, queue: seq<nat>, stopping: bool, stopped: bool, registered: bool,
    calls: nat, published: seq<nat>, dropped: seq<nat>)

  datatype Transport = Transport(
    connected: bool, ready: bool, client: bool, loopRunning: bool, halting: bool, halted: bool,
    libraryAcquired: bool, libraryUp: bool, refs: nat, otherRefs: nat)

  datatype State = State(
    pipeline: PipelinePc, worker: WorkerPc, network: NetworkPc, main: MainPc, retry: RetryPc,
    sink: Sink, transport: Transport)

  /** Freshly constructed objects; other transports may already use the library. */
  predicate Init(s: State) {
    && s.pipeline == PIdle && s.worker == WUnborn && s.network == NIdle && s.main == OIdle && s.retry == RUnborn
    && s.sink == Sink(s.sink.maxQueueSize, [], false, false, false, 0, [], [])
    && s.transport == Transport(false, false, false, false, false, false,
                                false, s.transport.otherRefs > 0, s.transport.otherRefs, s.transport.otherRefs)
  }

  // ---------- what each program counter holds and waits for ----------

  predicate DestroyHolds(d: DestroyPc, m: Mutex) {
    (m == ClientMutex && d.DHoldClient?) || (m == LibraryMutex && d.DHoldLibrary?)
  }

  predicate InitHolds(i: InitPc, m: Mutex) {
    (m == ClientMutex && i.IHoldClient?) || (m == LibraryMutex && i.IHoldLibrary?) || (i.IFail? && DestroyHolds(i.d, m))
  }

  predicate MainHolds(pc: MainPc, m: Mutex) {
    match m
    case RetryMutex => pc.OStartHold? || pc.OStartInit? || pc.OStopHold?
    case LibraryMutex => (pc.OStartInit? && InitHolds(pc.i, m)) || (pc.ODestroy? && DestroyHolds(pc.d, m))
    case ClientMutex =>
      (pc.OStartInit? && InitHolds(pc.i, m)) || (pc.ODestroy? && DestroyHolds(pc.d, m)) || pc.OFarewellHold?
    case ListenerMutex =>
      pc.OAddHold? || pc.ORemoveHold? || pc.OTellHold? || pc.OTellWantQueue? || pc.OTellHoldQueue? || pc.OTellNotify?
    case QueueMutex => pc.ODrainHold? || pc.OTellHoldQueue?
  }

  predicate RetryHolds(pc: RetryPc, m: Mutex) {
    match m
    case RetryMutex => pc.RTest? || pc.RFalse? || pc.RHoldWake? || pc.RAgainHold?
    case _ => pc.RInit? && InitHolds(pc.i, m)
  }

  predicate NetworkHolds(pc: NetworkPc, m: Mutex) {
    match m
    case ClientMutex => pc.NHoldClient?
    case ListenerMutex => pc.NHoldListener? || pc.NWantQueue? || pc.NHoldQueue? || pc.NNotify?
    case QueueMutex => pc.NHoldQueue?
    case _ => false
  }

  predicate WorkerHolds(pc: WorkerPc, m: Mutex) {
    match m
    case QueueMutex => pc.WCheck? || pc.WFalse? || pc.WTrue?
    case ClientMutex => pc.WHoldClient?
    case _ => false
  }

  predicate Holds(s: State, t: Thread, m: Mutex) {
    match t
    case Pipeline => m == QueueMutex && s.pipeline.PHold?
    case Worker => WorkerHolds(s.worker, m)
    case Network => NetworkHolds(s.network, m)
    case Main => MainHolds(s.main, m)
    case Retry => RetryHolds(s.retry, m)
  }

  datatype Wait = Nothing | Lock(m: Mutex) | Join(t: Thread)

  function DestroyWait(d: DestroyPc): Wait {
    match d
    case DWantClient => Lock(ClientMutex)
    case DJoin => Join(Network)
    case DWantLibrary => Lock(LibraryMutex)
    case _ => Nothing
  }

  function InitWait(i: InitPc): Wait {
    match i
    case IWantLibrary => Lock(LibraryMutex)
    case IWantClient => Lock(ClientMutex)
    case IFail(d) => DestroyWait(d)
    case _ => Nothing
  }

  function MainWait(pc: MainPc): Wait {
    match pc
    case OAddWant => Lock(ListenerMutex)
    case ORemoveWant => Lock(ListenerMutex)
    case ODrainWant => Lock(QueueMutex)
    case OJoinWorker => Join(Worker)
    case OStartWant => Lock(RetryMutex)
    case OStartInit(i) => InitWait(i)
    case OStopWant => Lock(RetryMutex)
    case OJoinRetry => Join(Retry)
    case OFarewellWant => Lock(ClientMutex)
    case ODestroy(d) => DestroyWait(d)
    case OTellWant => Lock(ListenerMutex)
    case OTellWantQueue => Lock(QueueMutex)
    case _ => Nothing
  }

  function RetryWait(pc: RetryPc): Wait {
    match pc
    case RWant => Lock(RetryMutex)
    case RWake => Lock(RetryMutex)
    case RInit(i) => InitWait(i)
    case RAgainWant(_) => Lock(RetryMutex)
    case _ => Nothing
  }

  function NetworkWait(pc: NetworkPc): Wait {
    match pc
    case NWantClient => Lock(ClientMutex)
    case NWantListener => Lock(ListenerMutex)
    case NWantQueue => Lock(QueueMutex)
    case _ => Nothing
  }

  function WorkerWait(pc: WorkerPc): Wait {
    match pc
    case WWant => Lock(QueueMutex)
    case WWantClient(_) => Lock(ClientMutex)
    case _ => Nothing
  }

  function Waits(s: State, t: Thread): Wait {
    match t
    case Pipeline => if s.pipeline.PWant? then Lock(QueueMutex) else Nothing
    case Worker => WorkerWait(s.worker)
    case Network => NetworkWait(s.network)
    case Main => MainWait(s.main)
    case Retry => RetryWait(s.retry)
  }

  /** A thread that can be joined: it has ended or was never created. */
  predicate Ended(s: State, t: Thread) {
    match t
    case Worker => s.worker.WDone? || s.worker.WUnborn?
    case Network => s.network.NIdle?
    case Retry => s.retry.RDone? || s.retry.RUnborn?
    case _ => true
  }

  predicate Taken(s: State, m: Mutex) {
    Holds(s, Pipeline, m) || Holds(s, Worker, m) || Holds(s, Network, m) || Holds(s, Main, m) || Holds(s, Retry, m)
  }

  function HolderOf(s: State, m: Mutex): (t: Thread)
    requires Taken(s, m)
    ensures Holds(s, t, m)
  {
    if Holds(s, Pipeline, m) then Pipeline
    else if Holds(s, Worker, m) then Worker
    else if Holds(s, Network, m) then Network
    else if Holds(s, Main, m) then Main
    else Retry
  }

  predicate Blocked(s: State, t: Thread) {
    match Waits(s, t)
    case Nothing => false
    case Lock(m) => Taken(s, m)
    case Join(u) => !Ended(s, u)
  }

  /** The thread that a blocked thread waits for. */
  function BlockedBy(s: State, t: Thread): Thread
    requires Blocked(s, t)
  {
    match Waits(s, t)
    case Lock(m) => HolderOf(s, m)
    case Join(u) => u
  }

  /** Threads that act of their own accord; the others wait for a call, an event or a wake-up. */
  predicate Active(s: State, t: Thread) {
    match t
    case Pipeline => !s.pipeline.PIdle?
    case Worker => !s.worker.WUnborn? && !s.worker.WAsleep? && !s.worker.WDone?
    case Network => !s.network.NIdle?
    case Main => !s.main.OIdle?
    case Retry => !s.retry.RUnborn? && !s.retry.RAsleep? && !s.retry.RDone?
  }

  // ---------- the critical sections of the queue ----------

  /** The configured queue size, at least 1. */
  function Clamped(maxQueueSize: nat): (n: nat) {
    if maxQueueSize < 1 then 1 else maxQueueSize
  }

  /** Drop-oldest enqueue: the new queue and what was dropped. */
  function Enqueue(queue: seq<nat>, f: nat, maxQueueSize: nat): (r: (seq<nat>, seq<nat>)) {
    if |queue| >= Clamped(maxQueueSize) then (queue[1..] + [f], [queue[0]]) else (queue + [f], [])
  }

  predicate WakeCondition(sink: Sink, connected: bool) {
    sink.stopping || (connected && sink.queue != [])
  }

  /** `notify_one` or `notify_all`: the worker is the only waiter. */
  function Woken(w: WorkerPc): WorkerPc {
    if w.WAsleep? then WWant else w
  }

  // ---------- steps: control ----------

  /** In this section `choice` resolves what the environment decides: the validity of a
      frame, the result of a library call. */
  function PipelineControl(s: State, choice: bool): PipelinePc {
    match s.pipeline
    case PIdle => if choice then PReady(s.sink.calls) else PIdle
    case PReady(f) => if s.transport.ready then PWant(f) else PIdle
    case PWant(f) => PHold(f)
    case PHold(_) => if s.sink.stopping then PIdle else PNotify
    case PNotify => PIdle
  }

  function WorkerControl(s: State, choice: bool): WorkerPc {
    match s.worker
    case WWant => WCheck
    case WCheck => if WakeCondition(s.sink, s.transport.connected) then WTrue else WFalse
    case WFalse => WAsleep
    case WTrue =>
      var n := |s.sink.queue|;
      if s.sink.stopping || n == 0 then WDone else WCount(s.sink.queue[n - 1], s.sink.queue[..n - 1])
    case WCount(f, superseded) => if superseded == [] then WSerialize(f) else WCount(f, superseded[1..])
    case WSerialize(f) => if choice then WWantClient(f) else WWant
    case WWantClient(f) => WHoldClient(f)
    case WHoldClient(_) => WWant
    case _ => s.worker
  }

  function NetworkControl(pc: NetworkPc, registered: bool): NetworkPc {
    match pc
    case NIdle => NIdle
    case NWantClient => NHoldClient
    case NHoldClient => NWantListener
    case NWantListener => NHoldListener
    case NHoldListener => if registered then NWantQueue else NIdle
    case NWantQueue => NHoldQueue
    case NHoldQueue => NNotify
    case NNotify => NIdle
  }

  function DestroyControl(d: DestroyPc, libraryAcquired: bool): DestroyPc {
    match d
    case DWantClient => DHoldClient
    case DHoldClient => DJoin
    case DJoin => DNotReady
    case DNotReady => DNotConnected
    case DNotConnected => if libraryAcquired then DWantLibrary else DEnd
    case DWantLibrary => DHoldLibrary
    case DHoldLibrary => DEnd
    case DEnd => DEnd
  }

  function InitControl(i: InitPc, t: Transport, choice: bool): InitPc {
    match i
    case IConfig => if choice then IWantLibrary else IDone(false)
    case IWantLibrary => IHoldLibrary
    case IHoldLibrary => if t.refs == 0 && !choice then IDone(false) else ICreate
    case ICreate => if choice then IWantClient else IFail(DWantClient)
    case IWantClient => IHoldClient
    case IHoldClient => ILoop
    case ILoop => if choice then IReady else IFail(DWantClient)
    case IReady => IDone(true)
    case IFail(d) => if d.DEnd? then IDone(false) else IFail(DestroyControl(d, t.libraryAcquired))
    case IDone(_) => i
  }

  function MainControl(pc: MainPc, registered: bool, t: Transport, retry: RetryPc, choice: bool): MainPc {
    match pc
    case OIdle => OIdle
    case OAddWant => OAddHold
    case OAddHold => OSpawn
    case OSpawn => OIdle
    case ORemoveWant => ORemoveHold
    case ORemoveHold => ODrainWant
    case ODrainWant => ODrainHold
    case ODrainHold => ONotify
    case ONotify => OJoinWorker
    case OJoinWorker => OIdle
    case OStartWant => OStartHold
    case OStartHold => if t.halting || t.ready || !retry.RUnborn? then OIdle else OStartInit(IConfig)
    case OStartInit(i) => if i.IDone? then OIdle else OStartInit(InitControl(i, t, choice))
    case OStopWant => OStopHold
    case OStopHold => OStopNotify
    case OStopNotify => OJoinRetry
    case OJoinRetry => OFarewellTest
    case OFarewellTest => if t.connected then OFarewellWant else ODestroy(DWantClient)
    case OFarewellWant => OFarewellHold
    case OFarewellHold => ODestroy(DWantClient)
    case ODestroy(d) => if d.DEnd? then OTellWant else ODestroy(DestroyControl(d, t.libraryAcquired))
    case OTellWant => OTellHold
    case OTellHold => if registered then OTellWantQueue else OIdle
    case OTellWantQueue => OTellHoldQueue
    case OTellHoldQueue => OTellNotify
    case OTellNotify => OIdle
  }

  function RetryControl(pc: RetryPc, t: Transport, choice: bool): RetryPc {
    match pc
    case RWant => RTest
    case RTest => if t.halting then RDone else RFalse
    case RFalse => RAsleep
    case RWake => RHoldWake
    case RHoldWake => if t.halting then RDone else RInit(IConfig)
    case RInit(i) => if i.IDone? then RAgainWant(i.success) else RInit(InitControl(i, t, choice))
    case RAgainWant(success) => RAgainHold(success)
    case RAgainHold(success) => if t.halting || success then RDone else RTest
    case _ => pc
  }

  // ---------- steps: data ----------

  /** `recordDrop`. */
  function Drop(sink: Sink, f: nat): Sink {
    sink.(dropped := sink.dropped + [f])
  }

  function PipelineData(s: State, choice: bool): Sink {
    match s.pipeline
    case PIdle =>
      var called := s.sink.(calls := s.sink.calls + 1);
      if choice then called else Drop(called, s.sink.calls)
    case PReady(f) => if s.transport.ready then s.sink else Drop(s.sink, f)
    case PHold(f) =>
      if s.sink.stopping then Drop(s.sink, f)
      else
        var (queue, oldest) := Enqueue(s.sink.queue, f, s.sink.maxQueueSize);
        s.sink.(queue := queue, dropped := s.sink.dropped + oldest)
    case _ => s.sink
  }

  function WorkerData(s: State, choice: bool): Sink {
    match s.worker
    case WTrue => if s.sink.stopping then s.sink else s.sink.(queue := [])
    case WCount(_, superseded) => if superseded == [] then s.sink else Drop(s.sink, superseded[0])
    case WSerialize(f) => if choice then s.sink else Drop(s.sink, f)
    case WHoldClient(f) =>
      if s.transport.client && choice then s.sink.(published := s.sink.published + [f]) else Drop(s.sink, f)
    case _ => s.sink
  }

  function MainSinkData(pc: MainPc, sink: Sink): Sink {
    match pc
    case OAddHold => sink.(registered := true)
    case ORemoveHold => sink.(registered := false)
    case ODrainHold => sink.(stopping := true, queue := [], dropped := sink.dropped + sink.queue)
    case _ => sink
  }

  /** The last user of the library cleans it up. */
  function Dereference(t: Transport): Transport {
    t.(refs := if t.refs > 0 then t.refs - 1 else 0, libraryUp := t.libraryUp && t.refs > 1)
  }

  function DestroyData(d: DestroyPc, t: Transport): Transport {
    match d
    case DHoldClient => t.(client := false)
    case DJoin => t.(loopRunning := false)
    case DNotReady => t.(ready := false)
    case DNotConnected => t.(connected := false)
    case DHoldLibrary => Dereference(t).(libraryAcquired := false)
    case _ => t
  }

  function InitData(i: InitPc, t: Transport, choice: bool): Transport {
    match i
    case IHoldLibrary =>
      if t.refs == 0 && !choice then t else t.(refs := t.refs + 1, libraryUp := true, libraryAcquired := true)
    case IHoldClient => t.(client := true)
    case ILoop => if choice then t.(loopRunning := true) else t
    case IReady => t.(ready := true)
    case IFail(d) => DestroyData(d, t)
    case _ => t
  }

  function MainTransportData(pc: MainPc, t: Transport, choice: bool): Transport {
    match pc
    case OStartInit(i) => InitData(i, t, choice)
    case ODestroy(d) => if d.DEnd? then t.(halted := true) else DestroyData(d, t)
    case _ => t
  }

  function RetryTransportData(pc: RetryPc, t: Transport, choice: bool): Transport {
    match pc
    case RInit(i) => InitData(i, t, choice)
    case _ => t
  }

  /** Threads that the main thread creates or wakes. */
  function MainToRetry(pc: MainPc, retry: RetryPc): RetryPc {
    match pc
    case OStartInit(i) => if i == IDone(false) then RWant else retry
    case OStopNotify => if retry.RAsleep? then RWake else retry
    case _ => retry
  }

  function MainToWorker(pc: MainPc, worker: WorkerPc): WorkerPc {
    match pc
    case OSpawn => WWant
    case ONotify => Woken(worker)
    case OTellNotify => Woken(worker)
    case _ => worker
  }

  // ---------- steps: the transition system ----------

  function PipelineNext(s: State, choice: bool): State {
    s.(pipeline := PipelineControl(s, choice), sink := PipelineData(s, choice),
       worker := if s.pipeline.PNotify? then Woken(s.worker) else s.worker)
  }

  function WorkerNext(s: State, choice: bool): State {
    s.(worker := WorkerControl(s, choice), sink := WorkerData(s, choice))
  }

  function NetworkNext(s: State): State {
    s.(network := NetworkControl(s.network, s.sink.registered),
       worker := if s.network.NNotify? then Woken(s.worker) else s.worker)
  }

  function MainNext(s: State, choice: bool): State {
    s.(main := MainControl(s.main, s.sink.registered, s.transport, s.retry, choice),
       sink := MainSinkData(s.main, s.sink), transport := MainTransportData(s.main, s.transport, choice),
       worker := MainToWorker(s.main, s.worker), retry := MainToRetry(s.main, s.retry))
  }

  function RetryNext(s: State, choice: bool): State {
    s.(retry := RetryControl(s.retry, s.transport, choice),
       transport := RetryTransportData(s.retry, s.transport, choice))
  }

  datatype Step =
    | Run(t: Thread, choice: bool)                       // the next step of an active thread
    | Call(valid: bool)                                  // the pipeline calls `send`
    | Connect(accepted: bool) | Disconnect               // network events
    | SinkStart | SinkShutdown | TransportStart | TransportStop
    | SpuriousWakeup | RetryTimeout
    | OtherAcquires | OtherReleases                      // other transports use the library

  predicate Enabled(s: State, step: Step) {
    match step
    case Run(t, _) => Active(s, t) && !Blocked(s, t)
    case Call(_) => s.pipeline.PIdle?
    case Connect(_) => s.network.NIdle? && s.transport.loopRunning
    case Disconnect => s.network.NIdle? && s.transport.loopRunning
    case SinkStart => s.main.OIdle? && s.worker.WUnborn? && !s.sink.stopped
    case SinkShutdown => s.main.OIdle? && !s.sink.stopped
    case TransportStart => s.main.OIdle?
    case TransportStop => s.main.OIdle? && !s.transport.halting
    case SpuriousWakeup => s.worker.WAsleep?
    case RetryTimeout => s.retry.RAsleep?
    case OtherAcquires => !Taken(s, LibraryMutex)
    case OtherReleases => !Taken(s, LibraryMutex) && s.transport.otherRefs > 0
  }

  /** `onConnect` and `onDisconnect` store the flag before they publish and notify; `stop`
      and `shutdown` begin by setting their once-only flags. */
  function Next(s: State, step: Step): State
    requires Enabled(s, step)
  {
    match step
    case Run(t, choice) =>
      (match t
       case Pipeline => PipelineNext(s, choice)
       case Worker => WorkerNext(s, choice)
       case Network => NetworkNext(s)
       case Main => MainNext(s, choice)
       case Retry => RetryNext(s, choice))
    case Call(valid) => PipelineNext(s, valid)
    case Connect(accepted) =>
      s.(transport := s.transport.(connected := accepted), network := if accepted then NWantClient else NWantListener)
    case Disconnect => s.(transport := s.transport.(connected := false), network := NWantListener)
    case SinkStart => s.(main := OAddWant)
    case SinkShutdown =>
      s.(main := if s.sink.registered then ORemoveWant else ODrainWant, sink := s.sink.(stopped := true))
    case TransportStart => s.(main := OStartWant)
    case TransportStop => s.(main := OStopWant, transport := s.transport.(halting := true))
    case SpuriousWakeup => s.(worker := WWant)
    case RetryTimeout => s.(retry := RWake)
    case OtherAcquires =>
      s.(transport :=
         s.transport.(otherRefs := s.transport.otherRefs + 1, refs := s.transport.refs + 1, libraryUp := true))
    case OtherReleases =>
      s.(transport := Dereference(s.transport).(otherRefs := s.transport.otherRefs - 1))
  }

  /** Every interleaving: any sequence of enabled steps from an initial state. */
  ghost predicate Behaviour(states: seq<State>, steps: seq<Step>) {
    && |states| == |steps| + 1 && Init(states[0])
    && forall i :: 0 <= i < |steps| ==> Enabled(states[i], steps[i]) && states[i + 1] == Next(states[i], steps[i])
  }
}
