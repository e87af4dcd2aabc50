/** The protocol comes to rest: left to themselves, that is without new calls, events, time-outs or
    spurious wake-ups, the threads take only a bounded number of steps, in whatever order, and then
    everything that is due has been served. */
module MqttProgress {
  import opened MqttProtocol
  import opened MqttTheorems

  // ---------- steps still to be taken, including those of the threads that will be woken ----------

  function DestroyRank(d: DestroyPc): nat {
    match d
    case DWantClient => 7
    case DHoldClient => 6
    case DJoin => 5
    case DNotReady => 4
    case DNotConnected => 3
    case DWantLibrary => 2
    case DHoldLibrary => 1
    case DEnd => 0
  }

  function InitRank(i: InitPc): nat {
    match i
    case IConfig => 15
    case IWantLibrary => 14
    case IHoldLibrary => 13
    case ICreate => 12
    case IWantClient => 11
    case IHoldClient => 10
    case ILoop => 9
    case IReady => 1
    case IFail(d) => 1 + DestroyRank(d)
    case IDone(_) => 0
  }

  /** A queued frame is worth ten steps: the worker's way through `publish` and back to sleep. */
  function WorkerRank(pc: WorkerPc, queued: nat): nat {
    10 * queued +
    match pc
    case WWant => 3
    case WCheck => 2
    case WFalse => 1
    case WTrue => 1
    case WCount(_, superseded) => 7 + |superseded|
    case WSerialize(_) => 6
    case WWantClient(_) => 5
    case WHoldClient(_) => 4
    case _ => 0
  }

  function PipelineRank(pc: PipelinePc): nat {
    match pc
    case PIdle => 0
    case PReady(_) => 17
    case PWant(_) => 16
    case PHold(_) => 15
    case PNotify => 4
  }

  function NetworkRank(pc: NetworkPc): nat {
    match pc
    case NIdle => 0
    case NWantClient => 10
    case NHoldClient => 9
    case NWantListener => 8
    case NHoldListener => 7
    case NWantQueue => 6
    case NHoldQueue => 5
    case NNotify => 4
  }

  function RetryRank(pc: RetryPc): nat {
    match pc
    case RWant => 3
    case RTest => 2
    case RFalse => 1
    case RWake => 22
    case RHoldWake => 21
    case RInit(i) => 5 + InitRank(i)
    case RAgainWant(_) => 4
    case RAgainHold(_) => 3
    case _ => 0
  }

  function MainRank(pc: MainPc): nat {
    match pc
    case OIdle => 0
    case OAddWant => 6
    case OAddHold => 5
    case OSpawn => 4
    case ORemoveWant => 9
    case ORemoveHold => 8
    case ODrainWant => 7
    case ODrainHold => 6
    case ONotify => 5
    case OJoinWorker => 1
    case OStartWant => 21
    case OStartHold => 20
    case OStartInit(i) => 4 + InitRank(i)
    case OStopWant => 45
    case OStopHold => 44
    case OStopNotify => 43
    case OJoinRetry => 20
    case OFarewellTest => 19
    case OFarewellWant => 18
    case OFarewellHold => 17
    case ODestroy(d) => 9 + DestroyRank(d)
    case OTellWant => 8
    case OTellHold => 7
    case OTellWantQueue => 6
    case OTellHoldQueue => 5
    case OTellNotify => 4
  }

  function Measure(s: State): nat {
    PipelineRank(s.pipeline) + WorkerRank(s.worker, |s.sink.queue|) + NetworkRank(s.network) + MainRank(s.main)
      + RetryRank(s.retry)
  }

  // ---------- every step counts ----------

  lemma InitAdvances(i: InitPc, t: Transport, choice: bool)
    requires !i.IDone?
    ensures InitRank(InitControl(i, t, choice)) < InitRank(i)
  {}

  lemma WokenRank(w: WorkerPc, queued: nat)
    ensures WorkerRank(Woken(w), queued) <= WorkerRank(w, queued) + 3
  {}

  lemma PipelineAdvances(s: State, choice: bool)
    requires !s.pipeline.PIdle?
    ensures Measure(PipelineNext(s, choice)) < Measure(s)
  {
    WokenRank(s.worker, |s.sink.queue|);
  }

  lemma WorkerAdvances(s: State, choice: bool)
    requires Active(s, Worker)
    ensures Measure(WorkerNext(s, choice)) < Measure(s)
  {}

  lemma NetworkAdvances(s: State)
    requires !s.network.NIdle?
    ensures Measure(NetworkNext(s)) < Measure(s)
  {
    WokenRank(s.worker, |s.sink.queue|);
  }

  lemma MainSteps(pc: MainPc, registered: bool, t: Transport, retry: RetryPc, choice: bool)
    requires !pc.OIdle?
    ensures MainRank(MainControl(pc, registered, t, retry, choice)) < MainRank(pc)
    ensures pc.OSpawn? || pc.ONotify? || pc.OTellNotify? || pc == OStartInit(IDone(false)) ==>
              MainRank(MainControl(pc, registered, t, retry, choice)) + 4 <= MainRank(pc)
    ensures pc.OStopNotify? ==> MainRank(MainControl(pc, registered, t, retry, choice)) + 23 <= MainRank(pc)
  {
    if pc.OStartInit? && !pc.i.IDone? { InitAdvances(pc.i, t, choice); }
  }

  lemma MainAdvances(s: State, choice: bool)
    requires !s.main.OIdle?
    ensures Measure(MainNext(s, choice)) < Measure(s)
  {
    MainSteps(s.main, s.sink.registered, s.transport, s.retry, choice);
    WokenRank(s.worker, |s.sink.queue|);
  }

  lemma RetryAdvances(s: State, choice: bool)
    requires Active(s, Retry)
    ensures Measure(RetryNext(s, choice)) < Measure(s)
  {
    if s.retry.RInit? && !s.retry.i.IDone? { InitAdvances(s.retry.i, s.transport, choice); }
  }

  /** Each step of a thread makes the measure smaller, whatever the environment answers. */
  lemma StepAdvances(s: State, step: Step)
    requires step.Run? && Enabled(s, step)
    ensures Measure(Next(s, step)) < Measure(s)
  {
    match step.t
    case Pipeline => PipelineAdvances(s, step.choice);
    case Worker => WorkerAdvances(s, step.choice);
    case Network => NetworkAdvances(s);
    case Main => MainAdvances(s, step.choice);
    case Retry => RetryAdvances(s, step.choice);
  }

  // ---------- rest ----------

  lemma AdvancesAt(states: seq<State>, steps: seq<Step>, i: nat)
    requires Behaviour(states, steps) && i < |steps| && steps[i].Run?
    ensures Measure(states[i + 1]) < Measure(states[i])
  {
    StepAdvances(states[i], steps[i]);
  }

  lemma {:induction false} StrictlyFalling(f: seq<nat>, n: nat, m: nat)
    requires n <= m < |f| && forall i :: n <= i < m ==> f[i + 1] < f[i]
    ensures f[m] + (m - n) <= f[n]
    decreases m - n
  {
    if n < m { StrictlyFalling(f, n, m - 1); }
  }

  function Measures(states: seq<State>): (f: seq<nat>)
    ensures |f| == |states|
  {
    seq(|states|, i requires 0 <= i < |states| => Measure(states[i]))
  }

  /** No livelock: between two calls or events the threads take at most as many steps as the measure
      says, in every interleaving. */
  lemma StepsAreBounded(states: seq<State>, steps: seq<Step>, n: nat, m: nat)
    requires Behaviour(states, steps) && n <= m < |states|
    requires forall i :: n <= i < m ==> steps[i].Run?
    ensures Measure(states[m]) + (m - n) <= Measure(states[n])
  {
    var f := Measures(states);
    forall i | n <= i < m ensures f[i + 1] < f[i] { AdvancesAt(states, steps, i); }
    StrictlyFalling(f, n, m);
    assert f[m] == Measure(states[m]) && f[n] == Measure(states[n]);
  }

  ghost predicate AtRest(s: State) { forall t: Thread :: !Active(s, t) }

  /** `longer` and `more` continue a behaviour with steps of the threads only, for which the library
      gives the answer yes. */
  ghost predicate Continues(states: seq<State>, steps: seq<Step>, longer: seq<State>, more: seq<Step>) {
    && Behaviour(states, steps) && Behaviour(longer, more) && states <= longer && steps <= more
    && forall i :: |steps| <= i < |more| ==> more[i].Run? && more[i].choice
  }

  lemma OneMoreStep(states: seq<State>, steps: seq<Step>) returns (longer: seq<State>, more: seq<Step>)
    requires Behaviour(states, steps) && !AtRest(states[|steps|])
    ensures Continues(states, steps, longer, more) && |more| == |steps| + 1
  {
    var s := states[|steps|];
    var t: Thread :| Active(s, t);
    NoDeadlock(states, steps, |steps|, t);
    var u: Thread :| Enabled(s, Run(u, true));
    longer, more := states + [Next(s, Run(u, true))], steps + [Run(u, true)];
  }

  /** As long as some thread is active one can move, so the threads come to rest. */
  lemma {:induction false} ComesToRest(states: seq<State>, steps: seq<Step>, bound: nat)
    returns (longer: seq<State>, more: seq<Step>)
    requires Behaviour(states, steps) && Measure(states[|steps|]) <= bound
    ensures Continues(states, steps, longer, more) && AtRest(longer[|more|]) && |more| <= |steps| + bound
    decreases bound
  {
    if AtRest(states[|steps|]) {
      longer, more := states, steps;
    } else {
      var next, step := OneMoreStep(states, steps);
      AdvancesAt(next, step, |steps|);
      longer, more := ComesToRest(next, step, bound - 1);
    }
  }

  /** From every reachable state rest is reached, within the measure; then no live worker has due work
      and no reconnection thread sleeps through `stop`. */
  lemma RestIsReached(states: seq<State>, steps: seq<Step>) returns (longer: seq<State>, more: seq<Step>)
    requires Behaviour(states, steps)
    ensures Continues(states, steps, longer, more) && |more| <= |steps| + Measure(states[|steps|])
    ensures var s := longer[|more|];
            && AtRest(s)
            && (s.worker.WAsleep? ==> !s.sink.stopping && (s.transport.connected ==> s.sink.queue == []))
            && (s.retry.RAsleep? ==> !s.transport.halting)
  {
    longer, more := ComesToRest(states, steps, Measure(states[|steps|]));
    RestMeansServed(longer, more, |more|);
  }
}
