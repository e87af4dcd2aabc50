/** No wake-up is lost: the sink's worker never sleeps through work that is due unless some
    thread still owes it a notification. */
module MqttWakeup {
  import opened MqttProtocol
  import opened MqttLocks

  // ---------- life of the sink ----------

  /** Where the main thread can be, given the sink's flags. */
  ghost predicate LifeSound(s: State) {
    var started := !s.worker.WUnborn?;
    && (s.main.OAddWant? || s.main.OAddHold? ==> !started && !s.sink.registered && !s.sink.stopped)
    && (s.main.OSpawn? ==> !started && s.sink.registered && !s.sink.stopped)
    && (s.sink.registered && !started ==> s.main.OSpawn?)
    && (s.main.ORemoveWant? || s.main.ORemoveHold? ==> s.sink.stopped && s.sink.registered)
    && (s.sink.stopped && s.sink.registered ==> s.main.ORemoveWant? || s.main.ORemoveHold?)
    && (s.main.ODrainWant? || s.main.ODrainHold? ==> s.sink.stopped && !s.sink.registered && !s.sink.stopping)
    && (s.main.ONotify? || s.main.OJoinWorker? ==> s.sink.stopping)
    && (started && !s.sink.registered ==> s.main.ODrainWant? || s.main.ODrainHold? || s.sink.stopping)
    && (s.sink.stopping ==> s.sink.stopped && !s.sink.registered && s.sink.queue == [])
    && (s.network.NWantQueue? || s.network.NHoldQueue? || s.network.NNotify? ==> s.sink.registered)
    && (s.worker.WTrue? ==> s.sink.stopping || s.sink.queue != [])
  }

  lemma MainLife(s: State, choice: bool)
    requires Exclusive(s) && LifeSound(s) && !s.main.OIdle? && !Blocked(s, Main)
    ensures LifeSound(MainNext(s, choice))
  {
    if s.main.ORemoveHold? {
      assert Holds(s, Main, ListenerMutex);
      assert !Holds(s, Network, ListenerMutex);
    }
    if s.main.ODrainHold? {
      assert Holds(s, Main, QueueMutex);
      assert !Holds(s, Worker, QueueMutex);
    }
  }

  lemma PipelineLife(s: State, choice: bool)
    requires LifeSound(s)
    ensures LifeSound(PipelineNext(s, choice))
  {}

  lemma WorkerLife(s: State, choice: bool)
    requires LifeSound(s) && Active(s, Worker)
    ensures LifeSound(WorkerNext(s, choice))
  {}

  lemma OtherLife(s: State, step: Step)
    requires LifeSound(s) && Enabled(s, step)
    requires step.Run? ==> step.t == Network || step.t == Retry
    ensures LifeSound(Next(s, step))
  {
    match step
    case Run(t, choice) =>
    case Call(valid) => PipelineLife(s, valid);
    case _ =>
  }

  lemma StepKeepsLife(s: State, step: Step)
    requires Exclusive(s) && LifeSound(s) && Enabled(s, step)
    ensures LifeSound(Next(s, step))
  {
    match step
    case Run(t, choice) =>
      match t {
       case Pipeline => PipelineLife(s, choice);
       case Worker => WorkerLife(s, choice);
       case Main => MainLife(s, choice);
       case _ => OtherLife(s, step); }
    case _ => OtherLife(s, step);
  }

  // ---------- the wake-up invariant ----------

  /** Somebody has yet to notify the condition variable. */
  predicate Owes(s: State) {
    || s.pipeline.PNotify?
    || (s.sink.registered && !s.network.NIdle?)
    || s.main.ODrainWant? || s.main.ODrainHold? || s.main.ONotify?
  }

  /** A notification that is sure to come after the worker has gone to sleep, because its
      sender must first take the queue mutex. */
  predicate OwesAfterLock(s: State) {
    || (s.sink.registered && !s.network.NIdle? && !s.network.NHoldQueue? && !s.network.NNotify?)
    || s.main.ODrainWant?
  }

  ghost predicate WakeSound(s: State) {
    var due := WakeCondition(s.sink, s.transport.connected);
    && (s.worker.WFalse? && due ==> OwesAfterLock(s))
    && (s.worker.WFalse? ==> !s.sink.stopping)
    && (s.worker.WAsleep? && due ==> Owes(s))
    && (s.worker.WAsleep? && s.sink.stopping ==> s.main.ONotify?)
  }

  lemma PipelineWake(s: State, choice: bool)
    requires Exclusive(s) && LifeSound(s) && WakeSound(s)
    ensures WakeSound(PipelineNext(s, choice))
  {
    if s.pipeline.PHold? {
      assert Holds(s, Pipeline, QueueMutex);
      assert !Holds(s, Worker, QueueMutex);
    }
  }

  lemma WorkerWake(s: State, choice: bool)
    requires LifeSound(s) && WakeSound(s) && Active(s, Worker)
    ensures WakeSound(WorkerNext(s, choice))
  {}

  lemma NetworkWake(s: State)
    requires Exclusive(s) && LifeSound(s) && WakeSound(s) && !Blocked(s, Network)
    ensures WakeSound(NetworkNext(s))
  {
    if s.network.NWantQueue? {
      assert !Holds(s, Worker, QueueMutex);
    }
    if s.main.ODrainHold? {
      assert Holds(s, Main, QueueMutex);
      assert !Holds(s, Worker, QueueMutex);
    }
  }

  lemma MainWake(s: State, choice: bool)
    requires Exclusive(s) && LifeSound(s) && WakeSound(s) && !s.main.OIdle? && !Blocked(s, Main)
    ensures WakeSound(MainNext(s, choice))
  {
    if s.main.ODrainHold? {
      assert Holds(s, Main, QueueMutex);
      assert !Holds(s, Worker, QueueMutex);
    }
    if s.main.ODrainWant? {
      assert !Holds(s, Worker, QueueMutex);
    }
    MainLowersConnected(s.main, s.transport, choice);
  }

  lemma InitLowersConnected(i: InitPc, t: Transport, choice: bool)
    ensures InitData(i, t, choice).connected ==> t.connected
  {
    match i
    case IFail(d) => DestroyLowersConnected(d, t);
    case _ =>
  }

  lemma DestroyLowersConnected(d: DestroyPc, t: Transport)
    ensures DestroyData(d, t).connected ==> t.connected
  {}

  lemma MainLowersConnected(pc: MainPc, t: Transport, choice: bool)
    ensures MainTransportData(pc, t, choice).connected ==> t.connected
  {
    match pc
    case OStartInit(i) => InitLowersConnected(i, t, choice);
    case ODestroy(d) => DestroyLowersConnected(d, t);
    case _ =>
  }

  /** A sleeping or falling-asleep worker stays covered when neither it, its condition nor
      the debts change. */
  lemma StaysWoken(s: State, s': State)
    requires WakeSound(s) && s'.worker == s.worker && s'.sink.stopping == s.sink.stopping
    requires WakeCondition(s'.sink, s'.transport.connected) ==> WakeCondition(s.sink, s.transport.connected)
    requires Owes(s) ==> Owes(s')
    requires OwesAfterLock(s) ==> OwesAfterLock(s')
    requires s.main.ONotify? ==> s'.main.ONotify?
    ensures WakeSound(s')
  {}

  /** A network event puts the notification it owes on its way in the step that stores the flag. */
  lemma EventWake(s: State, step: Step)
    requires Exclusive(s) && LifeSound(s) && WakeSound(s) && Enabled(s, step) && (step.Connect? || step.Disconnect?)
    ensures WakeSound(Next(s, step))
  {
    if s.main.ODrainHold? {
      assert Holds(s, Main, QueueMutex);
      assert !Holds(s, Worker, QueueMutex);
    }
  }

  lemma OtherWake(s: State, step: Step)
    requires Exclusive(s) && LifeSound(s) && WakeSound(s) && Enabled(s, step) && !step.Run? && !step.Call?
    ensures WakeSound(Next(s, step))
  {
    if step.Connect? || step.Disconnect? {
      EventWake(s, step);
    } else if !step.SpuriousWakeup? {
      assert Dereference(s.transport).connected == s.transport.connected;
      StaysWoken(s, Next(s, step));
    }
  }

  lemma RetryWake(s: State, choice: bool)
    requires WakeSound(s)
    ensures WakeSound(RetryNext(s, choice))
  {
    if s.retry.RInit? { InitLowersConnected(s.retry.i, s.transport, choice); }
  }

  lemma StepKeepsWake(s: State, step: Step)
    requires Exclusive(s) && LifeSound(s) && WakeSound(s) && Enabled(s, step)
    ensures WakeSound(Next(s, step))
  {
    match step
    case Run(t, choice) =>
      match t {
        case Pipeline => PipelineWake(s, choice);
        case Worker => WorkerWake(s, choice);
        case Network => NetworkWake(s);
        case Main => MainWake(s, choice);
        case Retry => RetryWake(s, choice); }
    case Call(valid) => PipelineWake(s, valid);
    case _ => OtherWake(s, step);
  }
}
