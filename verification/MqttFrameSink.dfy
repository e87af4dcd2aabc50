/** The bodies of the sink's critical sections and of the superseded-frame loop, run without
    interference because of the queue mutex, against the steps of the protocol. */
module MqttFrameSink {
  import opened MqttProtocol

  class FrameSink {
    const maxQueueSize: nat
    var queue: seq<nat>
    var stopping: bool
    var stopped: bool
    var registered: bool
    ghost var calls: nat
    var published: seq<nat>
    var dropped: seq<nat>

    /** The protocol's view of this object. */
    ghost function View(): Sink reads this {
      Sink(maxQueueSize, queue, stopping, stopped, registered, calls, published, dropped)
    }

    constructor (size: nat)
      ensures View() == Sink(size, [], false, false, false, 0, [], [])
    {
      maxQueueSize := size;
      queue, published, dropped := [], [], [];
      stopping, stopped, registered := false, false, false;
      calls := 0;
    }

    method RecordDrop(f: nat)
      modifies `dropped
      ensures View() == Drop(old(View()), f)
    {
      dropped := dropped + [f];
    }

    /** The locked part of `send`. */
    method Push(f: nat) returns (notify: bool)
      modifies `queue, `dropped
      ensures notify == !stopping
      ensures forall s: State, choice: bool :: s.sink == old(View()) && s.pipeline == PHold(f) ==>
                View() == PipelineData(s, choice) && (PipelineControl(s, choice).PNotify? <==> notify)
      ensures |old(queue)| <= Clamped(maxQueueSize) ==> |queue| <= Clamped(maxQueueSize)
    {
      if stopping {
        RecordDrop(f);
        return false;
      }
      if |queue| >= Clamped(maxQueueSize) {
        var oldest := queue[0];
        queue := queue[1..];
        RecordDrop(oldest);
      }
      queue := queue + [f];
      return true;
    }

    /** The locked part of `shutdown`: the loop that drops what is queued. */
    method Drain()
      modifies `queue, `stopping, `dropped
      ensures View() == MainSinkData(ODrainHold, old(View()))
    {
      stopping := true;
      while queue != []
        invariant stopping && dropped + queue == old(dropped) + old(queue)
        decreases |queue|
      {
        var front := queue[0];
        queue := queue[1..];
        RecordDrop(front);
      }
      assert dropped + queue == dropped;
    }

    /** The locked part of the worker's loop, after its wait: take the newest, clear the rest. */
    method Take() returns (f: nat, superseded: seq<nat>)
      requires !stopping && queue != []
      modifies `queue
      ensures View() == old(View()).(queue := [])
      ensures superseded + [f] == old(queue)
    {
      superseded := queue[..|queue| - 1];
      if |superseded| > 0 {
        f := queue[|queue| - 1];
        queue := [];
      } else {
        f := queue[0];
        queue := queue[1..];
      }
    }

    /** One drop for each superseded frame, outside the lock. */
    method CountSuperseded(superseded: seq<nat>)
      modifies `dropped
      ensures View() == old(View()).(dropped := old(dropped) + superseded)
    {
      for i := 0 to |superseded|
        invariant dropped == old(dropped) + superseded[..i]
      {
        RecordDrop(superseded[i]);
      }
    }

    /** `publishFrame`: what the serializer and the transport answer is given. */
    method PublishFrame(f: nat, serialized: bool, client: bool, accepted: bool) returns (published: bool)
      modifies `published, `dropped
      ensures published == (serialized && client && accepted)
      ensures View() == if published then old(View()).(published := old(this.published) + [f]) else Drop(old(View()), f)
    {
      if !serialized {
        RecordDrop(f);
        return false;
      }
      if !(client && accepted) {
        RecordDrop(f);
        return false;
      }
      this.published := this.published + [f];
      return true;
    }
  }
}
