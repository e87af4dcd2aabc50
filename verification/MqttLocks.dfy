/** Mutual exclusion, lock order and progress of the publishing protocol. */
module MqttLocks {
  import opened MqttProtocol

  ghost predicate Exclusive(s: State) {
    forall m: Mutex, t: Thread, u: Thread :: Holds(s, t, m) && Holds(s, u, m) ==> t == u
  }

  // ---------- a thread gains only the mutex it was waiting for ----------

  lemma DestroyGains(d: DestroyPc, acquired: bool, m: Mutex)
    ensures DestroyHolds(DestroyControl(d, acquired), m) ==> DestroyWait(d) == Lock(m)
  {}

  lemma InitGains(i: InitPc, t: Transport, choice: bool, m: Mutex)
    ensures InitHolds(InitControl(i, t, choice), m) ==> InitWait(i) == Lock(m) || i.IDone?
  {}

  lemma MainGains(pc: MainPc, registered: bool, t: Transport, retry: RetryPc, choice: bool, m: Mutex)
    ensures MainHolds(MainControl(pc, registered, t, retry, choice), m) ==> MainHolds(pc, m) || MainWait(pc) == Lock(m)
  {
    if pc.OStartInit? {
      InitGains(pc.i, t, choice, m);
    } else if pc.ODestroy? {
      DestroyGains(pc.d, t.libraryAcquired, m);
    }
  }

  lemma RetryGains(pc: RetryPc, t: Transport, choice: bool, m: Mutex)
    ensures RetryHolds(RetryControl(pc, t, choice), m) ==> RetryHolds(pc, m) || RetryWait(pc) == Lock(m)
  {
    if pc.RInit? { InitGains(pc.i, t, choice, m); }
  }

  lemma WorkerGains(s: State, choice: bool, m: Mutex)
    ensures WorkerHolds(WorkerControl(s, choice), m) ==> WorkerHolds(s.worker, m) || WorkerWait(s.worker) == Lock(m)
  {}

  lemma NetworkGains(pc: NetworkPc, registered: bool, m: Mutex)
    ensures NetworkHolds(NetworkControl(pc, registered), m) ==> NetworkHolds(pc, m) || NetworkWait(pc) == Lock(m)
  {}

  /** Holding changes only for the thread that moves, and only by what it waited for. */
  ghost predicate GainsOnly(s: State, s': State, t: Thread) {
    && (forall u: Thread, m: Mutex :: u != t && Holds(s', u, m) ==> Holds(s, u, m))
    && (forall m: Mutex :: Holds(s', t, m) ==> Holds(s, t, m) || Waits(s, t) == Lock(m))
  }

  lemma MainGainsOnly(s: State, choice: bool)
    ensures GainsOnly(s, MainNext(s, choice), Main)
  {
    forall m: Mutex ensures Holds(MainNext(s, choice), Main, m) ==> Holds(s, Main, m) || Waits(s, Main) == Lock(m) {
      MainGains(s.main, s.sink.registered, s.transport, s.retry, choice, m);
    }
  }

  lemma RetryGainsOnly(s: State, choice: bool)
    ensures GainsOnly(s, RetryNext(s, choice), Retry)
  {
    forall m: Mutex ensures Holds(RetryNext(s, choice), Retry, m) ==> Holds(s, Retry, m) || Waits(s, Retry) == Lock(m) {
      RetryGains(s.retry, s.transport, choice, m);
    }
  }

  lemma WorkerGainsOnly(s: State, choice: bool)
    ensures GainsOnly(s, WorkerNext(s, choice), Worker)
  {
    forall m: Mutex
      ensures Holds(WorkerNext(s, choice), Worker, m) ==> Holds(s, Worker, m) || Waits(s, Worker) == Lock(m) {
      WorkerGains(s, choice, m);
    }
  }

  lemma NetworkGainsOnly(s: State)
    ensures GainsOnly(s, NetworkNext(s), Network)
  {
    forall m: Mutex ensures Holds(NetworkNext(s), Network, m) ==> Holds(s, Network, m) || Waits(s, Network) == Lock(m) {
      NetworkGains(s.network, s.sink.registered, m);
    }
  }

  lemma PipelineGainsOnly(s: State, choice: bool)
    ensures GainsOnly(s, PipelineNext(s, choice), Pipeline)
  {}

  lemma UnblockedStaysExclusive(s: State, s': State, t: Thread)
    requires Exclusive(s) && GainsOnly(s, s', t) && !Blocked(s, t)
    ensures Exclusive(s')
  {
    forall m: Mutex, u: Thread, v: Thread | Holds(s', u, m) && Holds(s', v, m)
      ensures u == v
    {
      assert u == t || Holds(s, u, m);
      assert v == t || Holds(s, v, m);
    }
  }

  /** Mutual exclusion is kept by every step of every thread. */
  lemma StepStaysExclusive(s: State, step: Step)
    requires Exclusive(s) && Enabled(s, step)
    ensures Exclusive(Next(s, step))
  {
    match step
    case Run(t, choice) =>
      match t {
        case Pipeline => PipelineGainsOnly(s, choice);
        case Worker => WorkerGainsOnly(s, choice);
        case Network => NetworkGainsOnly(s);
        case Main => MainGainsOnly(s, choice);
        case Retry => RetryGainsOnly(s, choice);
      }
      UnblockedStaysExclusive(s, Next(s, step), t);
    case Call(valid) =>
      PipelineGainsOnly(s, valid);
      UnblockedStaysExclusive(s, Next(s, step), Pipeline);
    case _ =>
      FreshEventGains(s, step);
  }

  lemma FreshEventGains(s: State, step: Step)
    requires Exclusive(s) && Enabled(s, step) && !step.Run? && !step.Call?
    ensures Exclusive(Next(s, step))
  {
    var s' := Next(s, step);
    assert forall u: Thread, m: Mutex :: Holds(s', u, m) ==> Holds(s, u, m);
  }

  // ---------- lock order ----------

  function Rank(m: Mutex): nat {
    match m
    case RetryMutex => 1
    case LibraryMutex => 2
    case ClientMutex => 3
    case ListenerMutex => 4
    case QueueMutex => 5
  }

  function WaitRank(w: Wait): nat {
    match w
    case Lock(m) => Rank(m)
    case _ => 0
  }

  /** One acyclic order of acquisition: a thread that waits for a mutex holds only mutexes
      of lower rank. */
  lemma AcquiresInOrder(s: State, t: Thread, wanted: Mutex, held: Mutex)
    requires Waits(s, t) == Lock(wanted) && Holds(s, t, held)
    ensures Rank(held) < Rank(wanted)
  {}
}
