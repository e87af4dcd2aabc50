/** Life of the shared transport: at each point of its start, retry, failure and stop
    sequences exactly the right pieces exist, and the library outlives every client. */
module MqttTransportLife {
  import opened MqttProtocol
  import opened MqttLocks

  // ---------- which pieces exist ----------

  predicate Down(t: Transport) {
    !t.client && !t.loopRunning && !t.ready && !t.connected && !t.libraryAcquired
  }

  predicate Up(t: Transport) {
    t.client && t.loopRunning && t.ready && t.libraryAcquired
  }

  /** Pieces left while `destroyClient` runs; it is entered with any of them. */
  predicate DestroySound(d: DestroyPc, t: Transport) {
    && (d.DWantClient? || d.DHoldClient? || !t.client)
    && (d.DWantClient? || d.DHoldClient? || d.DJoin? || !t.loopRunning)
    && (d.DNotConnected? || d.DWantLibrary? || d.DHoldLibrary? || d.DEnd? ==> !t.ready)
    && (d.DWantLibrary? || d.DHoldLibrary? || d.DEnd? ==> !t.connected)
    && (d.DWantLibrary? || d.DHoldLibrary? ==> t.libraryAcquired)
    && (d.DEnd? ==> !t.libraryAcquired)
    && (t.client || t.loopRunning ==> t.libraryAcquired)
    && (t.connected ==> t.loopRunning || d.DNotReady? || d.DNotConnected?)
  }

  predicate InitSound(i: InitPc, t: Transport) {
    && (i.IConfig? || i.IWantLibrary? || i.IHoldLibrary? || (i.IDone? && !i.success) ==> Down(t))
    && (i.ICreate? || i.IWantClient? || i.IHoldClient? || i.ILoop? || i.IReady? ==> t.libraryAcquired && !t.ready)
    && (i.ICreate? || i.IWantClient? || i.IHoldClient? ==> !t.client)
    && (i.ILoop? || i.IReady? ==> t.client)
    && (i.IReady? ==> t.loopRunning)
    && (!i.IReady? && !(i.IDone? && i.success) ==> !t.loopRunning && !t.ready && !t.connected)
    && (i.IDone? && i.success ==> Up(t))
    && (i.IFail? ==> DestroySound(i.d, t))
  }

  predicate AfterRetry(success: bool, t: Transport) {
    if success then Up(t) else Down(t)
  }

  predicate RetrySound(retry: RetryPc, t: Transport) {
    if RetryEnded(retry) then Up(t) || Down(t)
    else if retry.RInit? then InitSound(retry.i, t)
    else if retry.RAgainWant? || retry.RAgainHold? then AfterRetry(retry.success, t)
    else Down(t)
  }

  predicate RetryEnded(retry: RetryPc) {
    retry.RUnborn? || retry.RDone?
  }

  predicate Pieces(main: MainPc, retry: RetryPc, t: Transport) {
    if main.OStartInit? then retry.RUnborn? && InitSound(main.i, t)
    else if main.ODestroy? then RetryEnded(retry) && DestroySound(main.d, t)
    else RetrySound(retry, t)
  }

  /** Main is inside `stop`, before the transport is down. */
  predicate Stopping(main: MainPc) {
    || main.OStopWant? || main.OStopHold? || main.OStopNotify? || main.OJoinRetry?
    || main.OFarewellTest? || main.OFarewellWant? || main.OFarewellHold? || main.ODestroy?
  }

  predicate Telling(main: MainPc) {
    main.OTellWant? || main.OTellHold? || main.OTellWantQueue? || main.OTellHoldQueue? || main.OTellNotify?
  }

  predicate Halts(main: MainPc, retry: RetryPc, t: Transport) {
    && (Stopping(main) <==> t.halting && !t.halted)
    && (t.halted || Telling(main) ==> t.halting && t.halted && Down(t) && RetryEnded(retry))
    && (main.OStartInit? ==> !t.halting)
    && (main.OFarewellTest? || main.OFarewellWant? || main.OFarewellHold? ==> RetryEnded(retry))
  }

  /** The retry thread is never left asleep after `stop` has been called. */
  predicate RetryWoken(main: MainPc, retry: RetryPc, t: Transport) {
    && (retry.RAsleep? && t.halting ==> main.OStopWant? || main.OStopHold? || main.OStopNotify?)
    && (retry.RFalse? && t.halting ==> main.OStopWant?)
  }

  predicate LibrarySound(t: Transport) {
    (t.libraryUp <==> t.refs > 0) && t.refs == t.otherRefs + if t.libraryAcquired then 1 else 0
  }

  ghost predicate TransportSound(s: State) {
    && Pieces(s.main, s.retry, s.transport)
    && Halts(s.main, s.retry, s.transport)
    && RetryWoken(s.main, s.retry, s.transport)
    && LibrarySound(s.transport)
    && (!s.transport.loopRunning ==> s.network.NIdle?)
  }

  // ---------- one step of each procedure ----------

  /** A step of `destroyClient`; the join is passed only once the network loop is idle. */
  lemma DestroyStep(d: DestroyPc, t: Transport)
    requires DestroySound(d, t) && LibrarySound(t)
    ensures DestroySound(DestroyControl(d, t.libraryAcquired), DestroyData(d, t))
    ensures LibrarySound(DestroyData(d, t))
    ensures var t' := DestroyData(d, t);
            t'.halting == t.halting && t'.halted == t.halted && (t'.loopRunning == (t.loopRunning && !d.DJoin?))
            && (t'.ready ==> t.ready) && (t'.connected ==> t.connected)
  {
    match d
    case DHoldLibrary => assert Dereference(t).connected == t.connected;
    case _ =>
  }

  lemma InitStep(i: InitPc, t: Transport, choice: bool)
    requires InitSound(i, t) && LibrarySound(t) && !i.IDone?
    ensures InitSound(InitControl(i, t, choice), InitData(i, t, choice))
    ensures LibrarySound(InitData(i, t, choice))
    ensures var t' := InitData(i, t, choice);
            t'.halting == t.halting && t'.halted == t.halted && (t.loopRunning ==> t'.loopRunning)
  {
    match i
    case IFail(d) => DestroyStep(d, t);
    case _ =>
  }

  // ---------- one step of each thread ----------

  /** Main steps that leave the transport and the retry thread alone. */
  predicate Elsewhere(pc: MainPc) {
    !pc.OStartInit? && !pc.ODestroy? && !pc.OStopNotify?
  }

  lemma MainElsewhere(s: State, choice: bool)
    requires Exclusive(s) && TransportSound(s) && Elsewhere(s.main) && !s.main.OIdle? && !Blocked(s, Main)
    ensures TransportSound(MainNext(s, choice))
  {
    if s.main.OStopWant? {
      assert !Holds(s, Retry, RetryMutex);
    }
    assert MainNext(s, choice).transport == s.transport && MainNext(s, choice).retry == s.retry;
  }

  lemma MainInit(s: State, choice: bool)
    requires TransportSound(s) && s.main.OStartInit? && !Blocked(s, Main)
    ensures TransportSound(MainNext(s, choice))
  {
    if !s.main.i.IDone? { InitStep(s.main.i, s.transport, choice); }
  }

  lemma MainDestroy(s: State, choice: bool)
    requires TransportSound(s) && s.main.ODestroy? && !Blocked(s, Main)
    ensures TransportSound(MainNext(s, choice))
  {
    DestroyStep(s.main.d, s.transport);
  }

  lemma MainTransport(s: State, choice: bool)
    requires Exclusive(s) && TransportSound(s) && !s.main.OIdle? && !Blocked(s, Main)
    ensures TransportSound(MainNext(s, choice))
  {
    match s.main
    case OStartInit(i) => MainInit(s, choice);
    case ODestroy(d) => MainDestroy(s, choice);
    case OStopNotify =>
    case _ => MainElsewhere(s, choice);
  }

  lemma RetryTransport(s: State, choice: bool)
    requires Exclusive(s) && TransportSound(s) && Active(s, Retry) && !Blocked(s, Retry)
    ensures TransportSound(RetryNext(s, choice))
  {
    match s.retry
    case RInit(i) => if !i.IDone? { InitStep(i, s.transport, choice); }
    case RTest => 
    case RFalse =>
    case _ =>
  }

  /** Steps that touch neither the transport nor its two threads. */
  lemma BystanderTransport(s: State, s': State)
    requires TransportSound(s) && s'.main == s.main && s'.retry == s.retry && s'.transport == s.transport
    requires s.network.NIdle? ==> s'.network.NIdle?
    ensures TransportSound(s')
  {}

  lemma EventTransport(s: State, step: Step)
    requires TransportSound(s) && Enabled(s, step) && (step.Connect? || step.Disconnect?)
    ensures TransportSound(Next(s, step))
  {}

  lemma LibraryTransport(s: State, step: Step)
    requires TransportSound(s) && Enabled(s, step) && (step.OtherAcquires? || step.OtherReleases?)
    ensures TransportSound(Next(s, step))
  {
    assert Dereference(s.transport).connected == s.transport.connected;
  }

  lemma CallTransport(s: State, step: Step)
    requires TransportSound(s) && Enabled(s, step)
    requires step.SinkStart? || step.SinkShutdown? || step.TransportStart? || step.TransportStop? || step.RetryTimeout?
    ensures TransportSound(Next(s, step))
  {}

  lemma StepKeepsTransport(s: State, step: Step)
    requires Exclusive(s) && TransportSound(s) && Enabled(s, step)
    ensures TransportSound(Next(s, step))
  {
    var s' := Next(s, step);
    if step.Run? && step.t.Main? {
      MainTransport(s, step.choice);
    } else if step.Run? && step.t.Retry? {
      RetryTransport(s, step.choice);
    } else if step.Run? || step.Call? || step.SpuriousWakeup? {
      BystanderTransport(s, s');
    } else if step.Connect? || step.Disconnect? {
      EventTransport(s, step);
    } else if step.OtherAcquires? || step.OtherReleases? {
      LibraryTransport(s, step);
    } else {
      CallTransport(s, step);
    }
  }
}
