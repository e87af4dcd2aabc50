# VEDA safety pipeline: verification model

VEDA watches a parking lot. A compute server per camera reads ONVIF metadata over RTSP, removes
duplicate detections, sends people and vehicles to a top view and private regions to a blur list,
and publishes both over MQTT. A control server gathers the channels of one time window. A Qt client
tracks the objects on a map and blurs the video. This project models the parts of that pipeline that
are state machines or algorithms with strong invariants, and proves what they keep over every input,
every interleaving and every run. `double` is `real` (an opaque number token in the JSON codec),
times are integers, and threads are interleaved atomic steps.

The original changes state in place, so the model does: classes with the original's fields, arrays
compacted in place, loops with invariants. Each method is proved equal to a specification function;
the laws are proved about those functions and about runs of them.

Modules, with the part of the system they describe:

- `MqttProtocol`, `MqttLocks`, `MqttWakeup`, `MqttAccounts`, `MqttTransportLife`, `MqttTheorems`,
  `MqttProgress`, `MqttDelivery`, `MqttFrameSink`: the publishing sink and its shared transport. Five threads (pipeline, worker,
  network loop, owner, reconnection) with five mutexes, two condition variables, atomic flags and
  joins. Every lock, wait, notify, atomic store and join is a step of its own.
- `RtspStream`, `RtpMessages`: the buffered byte reader, the resynchronising interleaved-frame
  parser and the reassembly of RTP packets (section 10.12 of RFC 2326, sections 5.1 and 5.3.1 of
  RFC 3550). `PacketRing`: the drop-oldest packet ring and the reconnection backoff.
- `WindowAggregator`, `WindowRuns`, `WindowDelivery`: the map-based aggregator as the specification of the one with
  slots, occupancy flags, an active list and recycled buffers.
- `Domain`, `ContainmentSanitizer`, `BlurRouting`: duplicate removal, routing, mapping to the screen
  and their composition for one packet. `Homography`, `HomographyLaws`: the world transform.
- `TrackerFilters`, `TrackerBounds`, `TrackerState`, `RiskObjectTracker`, `TrackerRuns`, `TrackerWarmup`,
  `TrackerMotion`, `TrackerSamples`, `TrackerDisplay`, `TrackerLifecycle`, `TrackerFading`, `TrackerGhosts`,
  `TrackerReports`, `TrackerPulses`, `TrackerPulseTimes`: the client's live object tracker.
- `BlurHistory`, `BlurBoxes`: the time-indexed blur history. `ObjectTable`: the incremental table update.
- `ConfigLoader`, `ConfigWriter`, `ConfigLaws`: loader and editor of the client's configuration.
- `Decimal`, `Json`, `Contract`, `ContractLaws`, `ContractEncoder`: the message codec (JSON grammar:
  sections 4 to 7 of RFC 8259).

## Findings

Where a promised property does not hold of the code, the code is kept and the exact condition is proved.

- The client reads an RTP packet as its sender meant it exactly if the packet is unpadded and is not an
  empty marker packet that closes a pending message, or both overflow the cap (`PacketMeaning`). Padding
  is delivered with the payload (`PaddingIsDelivered`, `PaddedExample`), and such an empty packet does not
  end its message, which then comes out joined to the next (`EmptyMarkerMerges`).
- The two aggregators agree all through a run exactly if no accepted push comes earlier than the start of
  the window then pending: the simple one subtracts unsigned, the fast one signed (`AgreesExactly`,
  `ClockGoingBack`). A clock that goes back less than that does no harm.
- A window still pending at `start` is never delivered by the fast aggregator, nor anything after it, so one
  frame right before `start` is enough (`OnTimeIffStartedEmpty`, `StartedPendingStalls`,
  `PushedBeforeStartStalls`). Windows closed before `start` have been delivered.
- A Face that its parent's Head stands for is covered by that Head exactly if the Head's enlarged box
  contains the Face's visible part; the router compares parents and never boxes (`FaceIsCoveredByHead`,
  `MisplacedHeadExposesFace`).
- A parented Human or Vehicle is private, but the sanitizer may drop it as a duplicate before it is routed,
  and then nothing need cover it (`PrivateIsListedExactly`, `DroppedHumanIsExposed`). Where the screen is
  blurred at all is stated exactly by `BlurredExactly`.
- A missing calibration, the identity, is refused outside pixel space only. In pixel space it is accepted
  for every ordinary picture size, and pixels are taken for metres (`UncalibratedIsRefused`,
  `OrdinaryPicturesHideIt`, `UncalibratedMapsToPixels`, `UncalibratedPictureIsAccepted`).
- An object that comes onto the map is not always bright at once. It is exactly if, since the last reset and
  since it was last on the map, no snapshot has looked for it while it was missing, or the fade-in is no
  longer than the time since the last that did, of which at most 100 ms count (`BrightUnlessSought`). So an
  object omitted before it was ever shown fades in when it returns (`OmittedBeforeShownFadesIn`,
  `ReturnAfterFirstSnapshot`), and even one that has been dropped in the meantime (`ReturnAfterDrop`).
- A sample keeps the limit of 8 m/s exactly if it comes 1 to 500 ms after the last one, or its median is within
  the allowance anyway (`LimitIsKeptExactly`). A frame that lists an object twice, or a second frame in
  the same millisecond, moves it at once (`RepeatedIdJumps`, `SameMillisecondJumps`).
- A new frame only sets new targets for the markers, but it also changes the measured interval between frames,
  and with it the duration of the transition under way. A marker stays where it is at that instant exactly if
  both durations put it at the same place (`FrameMovesNothingExactly`); an early frame makes it jump
  (`EarlyFrameMovesMarker`).
- A missing object is shown at its filtered position until a snapshot comes more than 500 ms after its last sample.
  From then on it is shown where its last frame reported it, past median and limit (`MissingStaysUntilStale`).
- The distance between two pulses of one pair is kept between resets only; a stalled stream that expires
  is such a reset (`PairPulsesAreSpaced`, `ResetForgetsPulses`, `PulsesTwiceAcrossReset`).
- The table equals the new list exactly if no id loses copies (`UpdatedExactly`). The tracker that feeds it
  lists every object once (`SnapshotListsOnce`), so there the condition always holds.
- A file that the loader accepts can become unreadable by appending an area, through identifiers
  that differ by blanks or a leftover initial area (`AppendAcceptedExactly`,
  `LeftoverInitialAreaBlocksFirstArea`), or have areas that cannot be edited (`AcceptedIsEditable`). A
  file with one blank shows both (`BlankBreaksFile`).
- A new zone box does not always avoid the others: it overlaps the last one exactly if the last two differ
  in place and are less than one box apart in both directions (`NextZoneAvoidsLastExactly`, `NextZoneOverlaps`).
- Decoding inverts encoding exactly up to 256 objects; the encoder itself has no such limit
  (`TopViewRoundTrip`, `BlurRoundTrip`, `RiskRoundTrip`).

## Model

| member | source | states |
|---|---|---|
| MqttLocks.AcquiresInOrder | compute-server/src/mqtt/MqttTransport.cpp:85-141 | Lock acquisition follows one order (retry, library, client; listener, queue): whoever waits for a mutex holds only mutexes of lower rank. |
| MqttLocks.StepStaysExclusive | compute-server/src/sink/MqttFrameSink.h:111-149 | No step of any thread lets two threads hold the same mutex. |
| MqttWakeup.StepKeepsWake | compute-server/src/sink/MqttFrameSink.h:90-98 | The invariant behind the absence of lost wake-ups, although the worker's condition reads an atomic outside its mutex, is kept by every step. |
| MqttAccounts.StepKeepsAccounts | compute-server/src/sink/MqttFrameSink.h:185-314 | Every step leaves each call of `send` in exactly one place. |
| MqttAccounts.StepKeepsOrder | compute-server/src/sink/MqttFrameSink.h:256-275 | Queue, hands and published list stay in the order of the calls, under drop-oldest and coalescing. |
| MqttTransportLife.StepKeepsTransport | compute-server/src/mqtt/MqttTransport.cpp:143-276 | Client, loop thread, flags and library reference stay consistent through every success, failure, retry and stop. |
| MqttTheorems.AlwaysSound | compute-server/src/sink/MqttFrameSink.h:79-314 | All invariants hold in every state of every interleaving of calls, events, library results, spurious wake-ups and time-outs. |
| MqttTheorems.NoLostWakeup | compute-server/src/sink/MqttFrameSink.h:90-98 | A worker that sleeps, or has decided to, while its condition holds is owed a notification by some thread; if it has only decided, one that must first pass its mutex. |
| MqttTheorems.RestMeansServed | compute-server/src/sink/MqttFrameSink.h:233-247 | When no thread has anything left to do, no sleeping worker has work that is due or a stop to see, and no reconnection thread sleeps through `stop`. |
| MqttTheorems.BlockerIsActive | compute-server/src/mqtt/MqttTransport.cpp:248-351 | The thread a blocked one waits for is at work, and waits at most for a mutex of higher rank. |
| MqttTheorems.Unblocker | compute-server/src/mqtt/MqttTransport.cpp:248-351 | Following who waits for whom ends at a thread that can move: no cycle of locks and joins exists. |
| MqttTheorems.NoDeadlock | compute-server/src/sink/MqttFrameSink.h:204-230 | In every reachable state with an active thread some thread can take a step. |
| MqttTheorems.MutualExclusion | compute-server/src/mqtt/MqttTransport.cpp:301-313 | In every reachable state a mutex has at most one holder. |
| MqttTheorems.EveryCallAccounted | compute-server/src/sink/MqttFrameSink.h:111-149 | Calls equal published plus dropped plus queued plus in hand, and each single call is in exactly one of these places, once. |
| MqttTheorems.QueueStaysBounded | compute-server/src/sink/MqttFrameSink.h:129-141 | In every reachable state at most the configured number of frames, but at least one, fits the queue, and never more are queued. |
| MqttTheorems.ShutdownAccountsForAll | compute-server/src/sink/MqttFrameSink.h:210-230 | After `shutdown` every call is published or dropped, apart from one still inside `send`. |
| MqttTheorems.PublishedInOrder | compute-server/src/sink/MqttFrameSink.h:287-314 | Published frames are strictly increasing in send order. |
| MqttTheorems.TakeIsNewest | compute-server/src/sink/MqttFrameSink.h:249-281 | Each take removes the newest queued frame, newer than all published ones, empties the queue and leaves exactly the older ones to be counted as superseded. |
| MqttTheorems.LibraryOutlivesClient | compute-server/src/mqtt/MqttTransport.cpp:22-42 | The shared library is up whenever a client, a loop or another transport needs it, and is down once nobody does. |
| MqttTheorems.HaltedStaysDown | compute-server/src/mqtt/MqttTransport.cpp:248-276 | After `stop` nothing is left and no late retry or callback brings anything back. |
| MqttProgress.StepsAreBounded | compute-server/src/sink/MqttFrameSink.h:233-285 | No livelock: without new calls, events, time-outs or spurious wake-ups the threads take at most a bounded number of steps, in every interleaving. |
| MqttProgress.RestIsReached | compute-server/src/sink/MqttFrameSink.h:233-285 | From every reachable state the threads come to rest within that bound, with a library that says yes, and then all due work has been served. |
| MqttDelivery.StepPublishes | compute-server/src/sink/MqttFrameSink.h:297-302 | A step lengthens the published list by a frame, and drops nothing, if and only if the worker holds it, a client exists and the library takes it; no other step touches the list. |
| MqttDelivery.StepDrops | compute-server/src/sink/MqttFrameSink.h:117-141 | A step drops a frame if and only if it is invalid, the transport is not ready, it is refused while stopping, the oldest of a full queue, drained by shutdown, superseded, or fails to serialize or publish. |
| MqttDelivery.PublishedExactly | compute-server/src/sink/MqttFrameSink.h:287-314 | In every behaviour a call is published if and only if one of its steps publishes it. |
| MqttDelivery.DroppedExactly | compute-server/src/sink/MqttFrameSink.h:185-195 | And dropped if and only if one of its steps drops it for one of the eight reasons. |
| MqttDelivery.NewestIsPublished | compute-server/src/sink/MqttFrameSink.h:233-285 | While connection and client stay up, nobody shuts down and the library never says no, the newest queued frame is published once the threads have come to rest, or a newer one if `send` was at work. |
| MqttDelivery.QueuedUntilConnected | compute-server/src/sink/MqttFrameSink.h:240-247 | Without a connection nothing is taken: a queued frame stays queued unless a full queue pushes it out. |
| MqttDelivery.FirstFrameGoesOut | compute-server/src/sink/MqttFrameSink.h:79-149 | A behaviour from new objects to the first frame published: start of sink and transport, connection, one call. |
| MqttFrameSink.FrameSink.Push | compute-server/src/sink/MqttFrameSink.h:123-143 | The locked part of `send` is the protocol's enqueue step: bounded, drop-oldest, refused when stopping, with a notification exactly if queued. |
| MqttFrameSink.FrameSink.Drain | compute-server/src/sink/MqttFrameSink.h:218-225 | The locked part of `shutdown` drops all that is queued, oldest first, as one protocol step. |
| MqttFrameSink.FrameSink.Take | compute-server/src/sink/MqttFrameSink.h:267-274 | The worker gets the last queued frame; the superseded ones are exactly those before it. |
| MqttFrameSink.FrameSink.CountSuperseded | compute-server/src/sink/MqttFrameSink.h:279-281 | One drop is recorded for each superseded frame. |
| MqttFrameSink.FrameSink.PublishFrame | compute-server/src/sink/MqttFrameSink.h:287-314 | The frame is published if serializer, client and library agree, and dropped otherwise. |
| RtspStream.SocketReader.FillReadBuffer | compute-server/src/network/RtspClientV2.cpp:398-408 | Refilling neither loses nor repeats a byte of the stream, and fails only at its end. |
| RtspStream.SocketReader.ReadByte | compute-server/src/network/RtspClientV2.cpp:410-417 | Takes the next byte of the stream, whatever chunk it came in. |
| RtspStream.SocketReader.ReadBytes | compute-server/src/network/RtspClientV2.cpp:419-437 | Takes exactly the next `len` bytes of the stream or reports that there are fewer, and touches nothing beyond them. |
| RtpMessages.HeaderLengthIsExact | compute-server/src/network/RtspClientV2.cpp:597-627 | The header parser finds exactly the header the sender wrote, for every number of contributing sources and every extension size. |
| RtspStream.RtspClient.Run | compute-server/src/network/RtspClientV2.cpp:629-713 | The loop delivers the payloads determined by the byte stream alone (a prefix of them if cancelled); it ends because every pass consumes input. |
| RtpMessages.DeliversTheMessages | compute-server/src/network/RtspClientV2.cpp:629-713 | For every stream of sync-free text, other channels' frames and unpadded RTP packets, exactly the sender's messages are delivered, up to the first over the cap. |
| RtpMessages.CutStreamDeliversPrefix | compute-server/src/network/RtspClientV2.cpp:629-713 | A connection cut anywhere has delivered a prefix of what the whole stream delivers. |
| RtpMessages.DeliveryIgnoresChunking | compute-server/src/network/RtspClientV2.cpp:398-437 | Two connections that carry the same bytes in different chunks deliver the same. |
| RtpMessages.PacketMeaning | compute-server/src/network/RtspClientV2.cpp:665-713 | The client makes of a packet what its sender meant if and only if it is unpadded and no empty marker packet closing a pending message, or both overflow. |
| RtpMessages.PaddingIsDelivered | compute-server/src/network/RtspClientV2.cpp:665-713 | A message of one packet is delivered with its padding, hence as meant if and only if there is none. |
| RtpMessages.PaddedExample | compute-server/src/network/RtspClientV2.cpp:679-681 | An input: a packet with three bytes of padding. |
| RtpMessages.EmptyMarkerMerges | compute-server/src/network/RtspClientV2.cpp:668-671 | Three packets, the second empty with the marker of the first: two messages meant, one delivered. |
| PacketRing.Source.OnPayload | compute-server/src/source/RtspOnvifSourceV2.cpp:59-86 | The stored queue gains the packet at its end and loses its oldest exactly when full, whatever stale buffers the slots keep. |
| PacketRing.Source.Next | compute-server/src/source/RtspOnvifSourceV2.cpp:137-172 | Hands out the oldest stored packet and never a swapped-in buffer; false only when stopped and empty. |
| PacketRing.Source.DrainAfterStop | compute-server/src/source/RtspOnvifSourceV2.cpp:34-49 | After `stop` exactly the stored packets come out, in order, then false; all produced ones are consumed or dropped. |
| PacketRing.RunsInOrder | compute-server/src/source/RtspOnvifSourceV2.cpp:137-172 | In every run packets come out in production order without repeats, and produced equals consumed plus dropped plus stored. |
| PacketRing.RingIsQueue | compute-server/src/source/RtspOnvifSourceV2.cpp:59-120 | In every run the ring does what a plain queue does that pushes its oldest out when one more comes than fits. |
| PacketRing.WaitsDoubleUntilProductive | compute-server/src/source/RtspOnvifSourceV2.cpp:111-135 | Each wait is the initial delay doubled once per failure since the last productive session, cut off at the maximum. |
| WindowAggregator.TimeWindowAggregator.Push | control-server/src/aggregate/TimeWindowAggregator.cpp:21-58 | The simple aggregator steps as its specification, including the unsigned test of the window's age. |
| WindowAggregator.FrameBufferPool.Acquire | control-server/src/aggregate/FrameBufferPool.h:53-64 | Gives out a pooled buffer with whatever it still holds, or an empty one and a count of exhaustion. |
| WindowAggregator.FrameBufferPool.Release | control-server/src/aggregate/FrameBufferPool.h:74-77 | Puts a buffer back with its contents. |
| WindowAggregator.TimeWindowAggregatorV2.FillFlushBufferLocked | control-server/src/aggregate/TimeWindowAggregatorV2.cpp:78-94 | Whatever stale buffer is reused, the result is exactly the frames of the window by first arrival, and the window is emptied. |
| WindowAggregator.TimeWindowAggregatorV2.Push | control-server/src/aggregate/TimeWindowAggregatorV2.cpp:105-201 | Slots, flags and active list step as an abstract window of channel to frame; stale slots are invisible. |
| WindowAggregator.TimeWindowAggregatorV2.FlushOnDeadline | control-server/src/aggregate/TimeWindowAggregatorV2.cpp:203-231 | The timed flush hands out the whole window and re-arms the deadline. |
| WindowAggregator.ClosingTestsAgree | control-server/src/aggregate/TimeWindowAggregatorV2.cpp:133-151 | The signed and the unsigned test of a window's age agree if and only if the clock has not gone back. |
| WindowRuns.FastRefinesSimple | control-server/src/aggregate/TimeWindowAggregatorV2.cpp:105-201 | For every sequence of pushes and callback changes on a non-decreasing clock both aggregators deliver, window by window, the same channel-to-frame map. |
| WindowRuns.AgreesExactly | control-server/src/aggregate/TimeWindowAggregatorV2.cpp:133-151 | Both aggregators agree after every event of a run if and only if no accepted push comes earlier than the start of the window then pending. |
| WindowRuns.ClockGoingBack | control-server/src/aggregate/TimeWindowAggregator.cpp:21-58 | An input on which they differ, by one step back of the clock. |
| WindowRuns.StartedPendingStalls | control-server/src/aggregate/TimeWindowAggregatorV2.cpp:138-169 | With a window pending at `start`, nothing is ever delivered again until `stop`. |
| WindowRuns.PushedBeforeStartStalls | control-server/src/aggregate/TimeWindowAggregatorV2.cpp:39-52 | That state is reached: after any pushes, an accepted frame right before `start` ends all deliveries. |
| WindowRuns.OnTimeIffStartedEmpty | control-server/src/aggregate/TimeWindowAggregatorV2.cpp:161-169 | In every timed run each non-empty window has its deadline exactly one window size after its first push, if and only if nothing was pending at `start`. |
| WindowDelivery.DeliversAsPlanned | control-server/src/aggregate/TimeWindowAggregatorV2.cpp:200-256 | Over every timed run started empty, each flush delivers one list of exactly the last accepted frame of every channel since the flush before, a window size after the first of them; without a callback nothing is delivered. |
| WindowDelivery.EachPushIsAccounted | control-server/src/aggregate/TimeWindowAggregatorV2.cpp:153-169 | Every accepted frame is delivered with the flush of its window, or superseded there by a later one of its channel, or it or that one is pending. |
| ContainmentSanitizer.IouMeasures | compute-server/src/sanitize/ContainmentSanitizer.cpp:29-72 | IoU is symmetric, within [0, 1], and 1 for equal boxes. |
| ContainmentSanitizer.CommonPart | compute-server/src/sanitize/ContainmentSanitizer.cpp:45-55 | The intersection's area is that of the box of exactly the common points. |
| ContainmentSanitizer.SharesOfCommonPart | compute-server/src/sanitize/ContainmentSanitizer.cpp:63-91 | IoU is the share of the common part in what both cover, IoMin its share in the smaller box. |
| ContainmentSanitizer.IoMinMeasures | compute-server/src/sanitize/ContainmentSanitizer.cpp:82-90 | So is IoMin, and it is 1 for containment. |
| ContainmentSanitizer.Sanitizer.Sanitize | compute-server/src/sanitize/ContainmentSanitizer.cpp:106-172 | Marking and compacting in place returns exactly the subsequence of objects without a rule A or rule B witness in the original frame. |
| ContainmentSanitizer.NonRiskSurvives | compute-server/src/sanitize/ContainmentSanitizer.cpp:106-172 | Only risk objects are ever removed. |
| ContainmentSanitizer.Idempotent | compute-server/src/sanitize/ContainmentSanitizer.cpp:106-172 | Sanitizing again removes nothing more. |
| ContainmentSanitizer.OrderIndependent | compute-server/src/sanitize/ContainmentSanitizer.cpp:106-172 | The same objects survive in whatever order the camera lists them. |
| ContainmentSanitizer.RemovalLeavesSurvivor | compute-server/src/sanitize/ContainmentSanitizer.cpp:106-172 | From each removed object a chain of objects, each dropped because of the next, ends at one that stays: a strictly larger one of its class, or a blur object. |
| ContainmentSanitizer.ClassSurvives | compute-server/src/sanitize/ContainmentSanitizer.cpp:106-172 | Without Head or LicensePlate the last object of a class is never removed. |
| ContainmentSanitizer.ContainmentIsCaught | compute-server/src/sanitize/ContainmentSanitizer.cpp:133-160 | A risk object's box strictly inside a larger one of its class is always removed, unless the threshold is 1 or the frame is over the limit of 256 objects. |
| ContainmentSanitizer.UnitThresholdsKeepAll | compute-server/src/sanitize/ContainmentSanitizer.cpp:94-104 | Thresholds of 1 switch both rules off. |
| BlurRouting.Route | compute-server/src/route/ParentBasedRouter.cpp:13-52 | The caller's lists are replaced by exactly the objects to blur and those for the top view, in frame order. |
| BlurRouting.PrivateIsBlurred | compute-server/src/route/ParentBasedRouter.cpp:13-52 | Each object with a parent or of class Head or LicensePlate is on the blur list, or is a Face whose parent's Head is. |
| BlurRouting.RiskIsPublic | compute-server/src/route/ParentBasedRouter.cpp:13-52 | The top view gets parentless Humans and Vehicles only, and no object goes both ways. |
| BlurRouting.Mapper.Map | compute-server/src/mapper/AffineImageCoordinateMapper.cpp:64-112 | Mapping and compacting in place keeps exactly the visible boxes, mapped, in order. |
| BlurRouting.SurvivesExactly | compute-server/src/mapper/AffineImageCoordinateMapper.cpp:64-112 | A box survives if and only if it is well formed and its expanded image overlaps the screen with positive area. |
| BlurRouting.VisiblePartIsCovered | compute-server/src/mapper/AffineImageCoordinateMapper.cpp:18-112 | A box overlapping the screen survives as a non-empty box within the screen that covers every visible point of it. |
| BlurRouting.PlacesPoints | compute-server/src/mapper/AffineImageCoordinateMapper.cpp:74-84 | The placed box holds exactly the images of the points of the box. |
| BlurRouting.EnlargesFromCenter | compute-server/src/mapper/AffineImageCoordinateMapper.cpp:30-39 | Enlarging keeps the centre and multiplies width and height. |
| BlurRouting.Pipeline.OnPacket | compute-server/src/core/Pipeline.cpp:59-118 | One packet yields exactly the top-view objects and blur targets of its sanitized frame. |
| BlurRouting.TopViewIsPublic | compute-server/src/core/Pipeline.cpp:30-118 | Each top-view object is a parentless Human or Vehicle of the camera's frame that passed the edge policy, at its ground point's place. |
| BlurRouting.OnTopViewExactly | compute-server/src/core/Pipeline.cpp:59-118 | The top view shows exactly the parentless Humans and Vehicles that the sanitizer leaves and that pass the edge policy, each at the world point of the middle of its lower edge. |
| BlurRouting.PrivateIsListedExactly | compute-server/src/core/Pipeline.cpp:59-118 | A private object of the camera reaches the blur list if and only if the camera's frame holds no reason to drop it and no Head that stands for it; such a reason exists for parented Humans and Vehicles only. |
| BlurRouting.PrivateIsCovered | compute-server/src/core/Pipeline.cpp:59-118 | From camera to screen: every visible point of such an object is covered by its own blur box. |
| BlurRouting.DroppedHumanIsExposed | compute-server/src/sanitize/ContainmentSanitizer.cpp:145-153 | An input whose parented Human is dropped before routing and nothing is blurred. |
| BlurRouting.BlurredExactly | compute-server/src/mapper/AffineImageCoordinateMapper.cpp:64-112 | A point of the screen is blurred if and only if the enlarged box of a private, not represented object reaches it. |
| BlurRouting.FaceIsCoveredByHead | compute-server/src/route/ParentBasedRouter.cpp:24-35 | One blur box of a Head of its parent covers every visible point of a Face if and only if the enlarged box of such a Head of the camera's frame contains the visible part of the Face. |
| BlurRouting.MisplacedHeadExposesFace | compute-server/src/route/ParentBasedRouter.cpp:24-35 | An input whose visible Face gets no blur box at all. |
| Homography.HomographyTransform.Make | compute-server/src/transform/HomographyTransform.cpp:42-124 | Construction rescales and orients the caller's matrix in place, or fails, as specified. |
| Homography.HomographyTransform.ToLocalPoint | compute-server/src/transform/HomographyTransform.cpp:126-168 | A point is mapped or refused as specified, and exactly refusals are counted. |
| HomographyLaws.ScaleDoesNotMatter | compute-server/src/transform/HomographyTransform.cpp:42-124 | H and cH, for every non-zero c, negative too, give the same acceptance, error and kept matrix, hence the same mapping. |
| HomographyLaws.MapsByCalibration | compute-server/src/transform/HomographyTransform.cpp:50-168 | An accepted transform applies the matrix it was given, to (u, v) or in pixel space to (Wu, Hv), and refuses exactly the points outside picture, horizon or bounds. |
| HomographyLaws.GivesPointExactly | compute-server/src/transform/HomographyTransform.cpp:126-168 | A point of the picture gets a world point if and only if that solves the matrix equation in front of the horizon and lies within the bounds, each axis within its own. |
| HomographyLaws.SeesBottomCentre | compute-server/src/transform/HomographyTransform.cpp:83-112 | An accepted matrix has a positive third coordinate at the bottom centre of the picture; one refused for its horizon has next to none there. |
| HomographyLaws.UncalibratedIsRefused | compute-server/src/transform/HomographyTransform.cpp:50-124 | The identity at any scale is refused as uncalibrated outside pixel space; it is accepted if and only if pixel space is chosen with a picture size that no check objects to. |
| HomographyLaws.OrdinaryPicturesHideIt | compute-server/src/transform/HomographyTransform.cpp:83-116 | No check objects to a picture of 2 to 8192 pixels in each direction. |
| HomographyLaws.UncalibratedMapsToPixels | compute-server/src/transform/HomographyTransform.cpp:126-168 | Where it is accepted every point of the picture is placed at its pixel coordinates, or refused by the bounds. |
| HomographyLaws.UncalibratedPictureIsAccepted | compute-server/src/transform/HomographyTransform.cpp:112-116 | An input, 2000 by 1000 pixels, for which a missing calibration goes unnoticed. |
| HomographyLaws.ConstructedIsInjective | compute-server/src/transform/HomographyTransform.cpp:36-168 | Different accepted points map to different places. |
| HomographyLaws.SegmentsMapToSegments | compute-server/src/transform/HomographyTransform.cpp:126-168 | Points between two accepted points are accepted, bounds or not, and map between their images. |
| TrackerFilters.PercentileMonotone | client/src/model/RiskObjectTracker.cpp:132-141 | A larger fraction never gives a smaller percentile. |
| TrackerFilters.MedianStaysInside | client/src/model/RiskObjectTracker.cpp:913-934 | The per-axis median stays in every rectangle that holds the samples. |
| TrackerFilters.OutlierIsRejected | client/src/model/RiskObjectTracker.cpp:913-934 | Two equal samples of three decide; one outlier has no effect. |
| TrackerFilters.StepTowardsTarget | client/src/model/RiskObjectTracker.cpp:954-981 | Each step stays within the allowed distance and reaches the target or comes nearer by all of it, so it lies on the way and never overshoots. |
| TrackerFilters.SpeedIsLimited | client/src/model/RiskObjectTracker.cpp:954-981 | Over any chain of samples that keep the limit the distance from first to last position is at most 8 m/s times the sum of the gaps, each counted as at least 16 ms. |
| TrackerFilters.LimitIsKeptExactly | client/src/model/RiskObjectTracker.cpp:954-981 | A sample keeps the limit if and only if it is later than the last one by at most 500 ms, or its median is within the allowance. |
| TrackerFilters.ReachesConstantTarget | client/src/model/RiskObjectTracker.cpp:954-981 | A constant target is reached exactly, within one frame per 0.128 m of distance. |
| TrackerMotion.TrackedFollows | client/src/model/RiskObjectTracker.cpp:913-981 | Over every run that leaves an object tracked, with any number of samples in a frame or a millisecond, its filtered position is what the filter makes of its samples, and the gaps add up to the time between them. |
| TrackerSamples.HistoryIsLastThree | client/src/model/RiskObjectTracker.cpp:913-921 | Over every such run the filter remembers the last three samples of the object. |
| TrackerSamples.MedianIsMiddle | client/src/model/RiskObjectTracker.cpp:923-937 | Of three samples the median is the middle one on each axis. |
| TrackerSamples.OutlierDoesNotMove | client/src/model/RiskObjectTracker.cpp:898-937 | An object seen at one place twice and shown there stays there whatever a single sample says. |
| TrackerMotion.TrackedSpeedIsLimited | client/src/model/RiskObjectTracker.cpp:954-981 | Over every such run it moves at most 8 m/s, each gap counted as at least 16 ms, if each of its samples keeps the limit. |
| TrackerMotion.TimelySpeedIsLimited | client/src/model/RiskObjectTracker.cpp:954-981 | That is so with one sample to a frame, at later times not more than 500 ms apart. |
| TrackerMotion.TrackedReachesConstantTarget | client/src/model/RiskObjectTracker.cpp:954-981 | If all its medians agree it is there after one sample per 0.128 m. |
| TrackerMotion.RepeatedIdJumps | client/src/network/parsing/RiskMessageParser.cpp:112-146 | An input: a frame that lists an object twice puts it there at once, past median and limit. |
| TrackerMotion.SameMillisecondJumps | client/src/model/RiskObjectTracker.cpp:954-963 | An input: so does a second frame in the same millisecond. |
| TrackerFilters.RetargetingDoesNotJump | client/src/model/RiskObjectTracker.cpp:1015-1050 | A new target leaves the displayed position where it was at that instant. |
| TrackerFilters.TransitionArrives | client/src/model/RiskObjectTracker.cpp:1015-1050 | When the duration has passed the marker is at its target. |
| TrackerDisplay.MarkersMoveSteadily | client/src/model/RiskObjectTracker.cpp:428-432 | Over every run: the first snapshot after a frame shows an object at some place, every later one on the straight way from there to its filtered position by the elapsed share of the duration, and once that has passed exactly there. |
| TrackerDisplay.FrameMovesNothingExactly | client/src/model/RiskObjectTracker.cpp:1015-1050 | A frame leaves the marker where it is at that instant if and only if the old and the new duration put it at the same place. |
| TrackerDisplay.EarlyFrameMovesMarker | client/src/model/RiskObjectTracker.cpp:240-252 | An input: a frame after 100 instead of 200 ms moves it. |
| TrackerDisplay.VelocityIsDisplacement | client/src/model/RiskObjectTracker.cpp:434-436 | The velocity shown is the difference between the positions shown by two consecutive snapshots. |
| TrackerDisplay.RegularFramesSetDuration | client/src/model/RiskObjectTracker.cpp:1052-1072 | With frames at regular distances the transition lasts from one frame to the next, within its limits. |
| TrackerDisplay.DurationIsBounded | client/src/model/RiskObjectTracker.cpp:1061-1072 | It is never shorter than configured, nor longer than that or 400 ms. |
| TrackerBounds.EstimateHasSize | client/src/model/RiskObjectTracker.cpp:613-642 | The percentile estimate always has positive size and covers both percentiles on both axes. |
| TrackerWarmup.BoundsExistExactly | client/src/model/RiskObjectTracker.cpp:586-642 | Over every run without configured bounds there are bounds if and only if at some time the accepted frames with somebody in them since the last reset spanned the warm-up and held the minimum number of positions. |
| TrackerWarmup.FirstBounds | client/src/model/RiskObjectTracker.cpp:607-642 | The first time they do, the bounds are the padded box around the percentiles of exactly those positions, up to the maximum number. |
| TrackerBounds.UpdateOnlyGrows | client/src/model/RiskObjectTracker.cpp:586-692 | No accepted frame removes or shrinks automatic bounds. |
| TrackerBounds.UnchangedBelowThree | client/src/model/RiskObjectTracker.cpp:655-692 | Short of three non-empty frames outside the bounds, with no in-bounds frame or reset between, the bounds stay exactly as they are. |
| TrackerBounds.ChangedAtThree | client/src/model/RiskObjectTracker.cpp:655-692 | At the third such frame they grow strictly and hold all its positions. |
| TrackerBounds.WidenedExactly | client/src/model/RiskObjectTracker.cpp:655-692 | They become the smallest rectangle around the old one and the positions of all three frames, padded. |
| TrackerBounds.GrownIsSmallest | client/src/model/RiskObjectTracker.cpp:655-692 | Whatever covers the old rectangle and the positions covers that smallest one. |
| RiskObjectTracker.RiskObjectTracker.Reset | client/src/model/RiskObjectTracker.cpp:169-202 | A reset clears what belongs to the run and keeps the bounds. |
| RiskObjectTracker.RiskObjectTracker.SubmitFrame | client/src/model/RiskObjectTracker.cpp:210-347 | All the tracker's maps step together as the specification of one frame, whether it is taken or refused. |
| RiskObjectTracker.RiskObjectTracker.ExpireStaleFrame | client/src/model/RiskObjectTracker.cpp:356-363 | The last frame is forgotten exactly when it is older than the limit. |
| RiskObjectTracker.RiskObjectTracker.BuildSnapshot | client/src/model/RiskObjectTracker.cpp:374-573 | The picture and the updated display state are the specified functions of the state before. |
| RiskObjectTracker.RiskObjectTracker.TakeRiskEvents | client/src/model/RiskObjectTracker.cpp:579-584 | All pending events are handed out once, in order. |
| TrackerRuns.AlwaysInside | client/src/model/RiskObjectTracker.cpp:718-763 | With configured bounds, over every run of all operations, samples, filtered positions, transition ends, displayed positions and event midpoints stay inside the accepted rectangle. |
| TrackerRuns.KeptExactly | client/src/model/RiskObjectTracker.cpp:718-760 | A frame keeps exactly its objects no farther than twice the size of the bounds outside them, in order. |
| TrackerRuns.TrimmedExactly | client/src/model/RiskObjectTracker.cpp:340-350 | The frames remembered are the newest ones, up to the maximum. |
| TrackerRuns.AutomaticBoundsOnlyGrow | client/src/model/RiskObjectTracker.cpp:184-201 | Over every run, resets included, automatic bounds once there only grow. |
| TrackerRuns.BoundsStayBelowThree | client/src/model/RiskObjectTracker.cpp:655-692 | Over every run of the tracker bounds stay exactly as they are short of three accepted frames in a row that leave them. |
| TrackerRuns.BoundsWidenAtThree | client/src/model/RiskObjectTracker.cpp:655-692 | With the third such frame of a run they become the smallest rectangle around the old one and the positions of all three, padded. |
| TrackerLifecycle.AlwaysLifeSound | client/src/model/RiskObjectTracker.cpp:285-347 | Over every run the ids with a missing-since time are exactly the retained ids absent from the last accepted frame, and opacities stay in [0, 1]. |
| TrackerLifecycle.LifeAfterFrame | client/src/model/RiskObjectTracker.cpp:285-347 | What a frame does to each id: present, newly missing, still missing, dropped or unknown. |
| TrackerLifecycle.RenderLife | client/src/model/RiskObjectTracker.cpp:469-509 | A snapshot drops exactly the missing objects whose time is up and changes no missing-since time. |
| TrackerLifecycle.DroppedOnlyLate | client/src/model/RiskObjectTracker.cpp:469-509 | Over every run an omitted object stays until grace plus fade-out has passed since the frame that first omitted it, unless it returns or the tracker is reset. |
| TrackerLifecycle.StalledStreamStaysBright | client/src/model/RiskObjectTracker.cpp:402-467 | However long a stream stalls, each object of its last frame stays observed, never dimmer in a later snapshot. |
| TrackerLifecycle.SnapshotListsOnce | client/src/model/RiskObjectTracker.cpp:413-420 | A snapshot lists each object once, observed or missing, also when its frame repeats it. |
| TrackerReports.ObservedAsListed | client/src/model/RiskObjectTracker.cpp:395-450 | An observed object is reported with zone and risk level as the latest frame lists it first. |
| TrackerReports.RetainedAsListed | client/src/model/RiskObjectTracker.cpp:286-306 | What is retained of an object is what the last frame that held it said last. |
| TrackerReports.MissingAsRetained | client/src/model/RiskObjectTracker.cpp:464-503 | A missing object is reported with the zone and risk level retained, without velocity. |
| TrackerReports.PairsAsWarned | client/src/model/RiskObjectTracker.cpp:437-457 | The pairs of a snapshot are exactly those of which an object at risk warns of a nearest one under the same camera group; the first to warn sets the level. |
| TrackerFading.AlwaysRecalls | client/src/model/RiskObjectTracker.cpp:1082-1147 | In every run, of an object off the map is remembered that it was invisible when a snapshot last looked for it, or nothing if none has since the last reset and since it was last on the map. |
| TrackerFading.BrightUnlessSought | client/src/model/RiskObjectTracker.cpp:1082-1147 | Over every run, an object that a frame puts on the map is fully bright in the next snapshot if and only if nothing is remembered of it, or the fade-in is no longer than the time since the snapshot remembered, of which at most 100 ms count. |
| TrackerFading.NewObjectIsBright | client/src/model/RiskObjectTracker.cpp:1087-1116 | In every sound state a frame's object of which no opacity is remembered is fully bright in the next snapshot. |
| TrackerFading.OmittedBeforeShownFadesIn | client/src/model/RiskObjectTracker.cpp:1087-1116 | From every sound state in which an object is missing and was never shown: after a snapshot and the frame that brings it back, it is fully bright if and only if the fade-in is no longer than the time since that snapshot, of which at most 100 ms count. |
| TrackerFading.ReturnAfterFirstSnapshot | client/src/model/RiskObjectTracker.cpp:464-503 | The same for the run of two frames, a snapshot and a third frame from a fresh tracker, so the state is reached. |
| TrackerFading.ReturnAfterDrop | client/src/model/RiskObjectTracker.cpp:1126-1140 | An object that a second snapshot has dropped still fades in when it returns. |
| TrackerGhosts.FadesOutSteadily | client/src/model/RiskObjectTracker.cpp:1098-1112 | Over every run, for grace and fade-out together an omitted object is shown as missing, as bright as it was until the grace time is over and then evenly darker to nothing. |
| TrackerGhosts.MissingStaysUntilStale | client/src/model/RiskObjectTracker.cpp:1142-1157 | It stays at its filtered position until after a snapshot more than 500 ms after its last sample; then it is shown where its last frame reported it. |
| TrackerPulses.OnePulsePerSnapshot | client/src/model/RiskObjectTracker.cpp:511-559 | A snapshot emits at most one risk event, at least the minimum spacing after the last. |
| TrackerPulses.PairPulsesAreSpaced | client/src/model/RiskObjectTracker.cpp:511-569 | Two events of one pair in one run are at least 400 ms apart, if the clock does not go back and the tracker is not reset between them. |
| TrackerPulseTimes.FirstPairPulsesExactly | client/src/model/RiskObjectTracker.cpp:511-559 | The first pair at risk pulses in a snapshot if and only if no pulse came in the last 150 ms and it is new, has waited 1.5 s in danger or 1.2 s with a warning, or its risk has risen after 0.4 s, but never when it calms down; the event lies half way between both objects as shown. |
| TrackerPulses.ResetForgetsPulses | client/src/model/RiskObjectTracker.cpp:169-182 | Across a reset they are not: whatever came before, after a reset, an expiry or a pause of more than 5 s, the first snapshot of a frame with a pair at risk pulses at once. |
| TrackerPulses.PulsesTwiceAcrossReset | client/src/model/RiskObjectTracker.cpp:169-182 | Inputs for all three: the same pair pulses in two snapshots, however close. |
| BlurHistory.StableSortSorts | client/src/video/BlurProcessor.cpp:106-111 | The regions of a stored frame are sorted by key. |
| BlurHistory.StableSortKeepsFirst | client/src/video/BlurProcessor.cpp:124-130 | Of several regions with one key the lookup finds the one the camera listed first. |
| BlurHistory.FindSortedRegion | client/src/video/BlurProcessor.cpp:124-130 | The binary search finds what a linear search finds. |
| BlurHistory.BlurProcessor.SubmitFrame | client/src/video/BlurProcessor.cpp:294-356 | Replacing, inserting, restarting and pruning in place step the history as specified. |
| BlurHistory.AlwaysSound | client/src/video/BlurProcessor.cpp:294-356 | Over every run the history is strictly increasing in time, bounded in count and age, with sorted valid regions. |
| BlurHistory.TakenExactly | client/src/video/BlurProcessor.cpp:304-328 | A valid frame is taken if and only if it is not older than the history or the restart gap has passed since the last taken one; one far-future timestamp cannot block the stream. |
| BlurHistory.StoredExactly | client/src/video/BlurProcessor.cpp:326-356 | A frame taken joins the history in place of one of its time, and the oldest go as far as they are too old or too many. |
| BlurHistory.SelectsNearestOrHolds | client/src/video/BlurProcessor.cpp:454-475 | The binary search chooses what a linear scan would: the nearest frame, the earlier of two, else the previous one while it may be held, else none. |
| BlurHistory.BlurProcessor.RegionsFor | client/src/video/BlurProcessor.cpp:446-544 | The boxes returned are those specified for the selected frame, with interpolation and prediction. |
| BlurHistory.EveryWantedRegionIsBlurred | client/src/video/BlurProcessor.cpp:518-543 | A box is returned if and only if it belongs to a wanted region of the selected frame. |
| BlurHistory.BoxesComeFromRegions | client/src/video/BlurProcessor.cpp:477-543 | Each box returned is that of a wanted region of the selected frame, or has every edge between those of the two neighbouring frames, or is that box moved on without a change of size. |
| BlurBoxes.ReturnedBoxesAreRight | client/src/video/BlurProcessor.cpp:477-543 | One box is returned for each wanted region of the selected frame, in order: on the straight line between the boxes of the two neighbouring frames if both are near enough and report it, after the last frame moved on with the measured velocity for at most the configured time, and only otherwise as reported. |
| BlurHistory.InterpolatedLiesBetween | client/src/video/BlurProcessor.cpp:75-94 | Each interpolated edge lies between the two edges it comes from. |
| BlurHistory.InterpolationMeetsBothFrames | client/src/video/BlurProcessor.cpp:75-94 | At either frame's time that frame's own box is used. |
| BlurHistory.PredictionKeepsSize | client/src/video/BlurProcessor.cpp:96-104 | A predicted box keeps its size and moves with the measured velocity, for at most the configured time. |
| ObjectTable.TableModel.UpdateObjects | client/src/ui/DigitalTwinObjectTableModel.cpp:229-258 | Replaying the announced removals and insertions on the old ids gives the new ids, with no announcement to spare. |
| ObjectTable.UpdatedExactly | client/src/ui/DigitalTwinObjectTableModel.cpp:229-258 | The rows equal the new sorted list if and only if no id of it had more rows before than it has now. |
| ObjectTable.TableFollowsLists | client/src/ui/DigitalTwinObjectTableModel.cpp:229-258 | Over every sequence of lists with distinct ids the table is always the latest list, sorted. |
| ConfigLoader.ParseStreams | client/src/config/ApplicationConfig.cpp:316-372 | Accepts exactly the lists of distinct usable streams that cover every channel once; stream i is then on channel i. |
| ConfigLoader.ParseAreas | client/src/config/ApplicationConfig.cpp:374-461 | Accepts exactly the areas whose slot s names the camera of channel 4a+s, with distinct ids. |
| ConfigLoader.FindInitial | client/src/config/ApplicationConfig.cpp:463-481 | An initial area is found exactly if it is absent or names one of the areas. |
| ConfigLoader.Load | client/src/config/ApplicationConfig.cpp:207-221 | The loader accepts exactly the acceptable files, and an accepted one has stream i on channel i and slot s of area a on channel 4a+s. |
| ConfigWriter.UniqueIdentifier | client/src/config/ApplicationConfig.cpp:1132-1143 | The search ends, with the first free number from the start. |
| ConfigWriter.NextZoneKeepsSize | client/src/config/ApplicationConfig.cpp:950-974 | The new zone box has the last one's size, differs from it, and is acceptable exactly if it is within the limits. |
| ConfigWriter.NextZoneContinuesRow | client/src/config/ApplicationConfig.cpp:950-979 | The new box goes on with the step between the last two, or stands a quarter of the width to the right of a single one. |
| ConfigWriter.NextZoneAvoidsLastExactly | client/src/config/ApplicationConfig.cpp:941-979 | It overlaps the last box if and only if the step between the last two is smaller than that box in both directions. |
| ConfigWriter.AppendArea | client/src/config/ApplicationConfig.cpp:1091-1177 | Succeeds exactly on usable input for an intact file with room, and adds four new streams, one area and one zone box at the end. |
| ConfigWriter.UpdateArea | client/src/config/ApplicationConfig.cpp:1185-1247 | Succeeds exactly if the area exists and each of its slots names a camera to the letter, and then repoints just those. |
| ConfigLaws.AppendAcceptedExactly | client/src/config/ApplicationConfig.cpp:1091-1177 | The loader accepts the result of `appendArea` if and only if none of the four lowest free camera numbers and not the lowest free area number hides behind blanks in an old id, a leftover initial area is `area-01`, and the new box is within the limits. |
| ConfigLaws.TrimmedFileStaysAccepted | client/src/config/ApplicationConfig.cpp:316-488 | With trimmed ids, no leftover initial area and the box within the limits the loader accepts the result. |
| ConfigLaws.LeftoverInitialAreaBlocksFirstArea | client/src/config/ApplicationConfig.cpp:463-481 | A fresh file that names an initial area becomes unreadable by its first area, unless that name is the generated one. |
| ConfigLaws.AppendKeepsLoaded | client/src/config/ApplicationConfig.cpp:1091-1177 | Loading before and after an append gives the same old streams, areas and initial area. |
| ConfigLaws.AcceptedIsEditable | client/src/config/ApplicationConfig.cpp:1216-1230 | An area of an acceptable file can be edited if and only if each slot is, to the letter, the id of the camera on its channel. |
| ConfigLaws.BlankBreaksFile | client/src/config/ApplicationConfig.cpp:1091-1230 | An acceptable file with a blank after one camera id: unreadable after an append, and not editable. |
| ConfigLaws.EditStaysAccepted | client/src/config/ApplicationConfig.cpp:1185-1247 | A successful edit of an acceptable file leaves it acceptable. |
| ConfigLaws.EditMovesOnlyItsChannels | client/src/config/ApplicationConfig.cpp:1216-1234 | An edit changes the addresses of exactly the area's four channels, slot by slot. |
| Decimal.IntRoundTrip | shared/Contract.h:720-726 | The decimal text of every integer reads back as it. |
| Json.RoundTrip | shared/Contract.h:675-703 | Parsing inverts writing for every JSON value without escapes. |
| Json.TextIsUnambiguous | shared/Contract.h:675-703 | Different values have different texts. |
| Json.ItemsDepthIsLargest | shared/Contract.h:681-692 | The depth that the decoder limits is that of the deepest item of a list. |
| Json.MembersDepthIsLargest | shared/Contract.h:681-692 | And of the deepest member of an object. |
| Contract.ClassNameRoundTrip | shared/Contract.h:166-275 | Each object class is read back from its name, through the case-insensitive lookup. |
| Contract.CaseDoesNotMatter | shared/Contract.h:213-270 | Class names are read without regard to case. |
| Contract.LevelNameRoundTrip | shared/Contract.h:298-321 | Each risk level is read back from its name. |
| ContractEncoder.EncodeTopView | shared/Contract.h:741-769 | The text written by hand is a text of the object that `to_json` builds, with its members in the order of the writer; the library would sort them. |
| ContractEncoder.EncodeBlur | shared/Contract.h:771-801 | The same for blur frames. |
| ContractEncoder.EncodeRisk | shared/Contract.h:803-836 | The same for risk frames. |
| ContractLaws.TopViewRoundTrip | shared/Contract.h:564-582 | Decoding the written text gives the frame back if and only if it has at most 256 objects; then the text is below the 1 MiB guards. |
| ContractLaws.BlurRoundTrip | shared/Contract.h:584-601 | The same for blur frames. |
| ContractLaws.RiskRoundTrip | shared/Contract.h:603-627 | The same for risk frames. |

## Left out

- Mosquitto, OpenSSL, TLS, sockets, Digest authentication and the RTSP handshake: foreign calls; their results are free choices of a step, and the network is a given byte stream.
- The network thread's forced cancellation in `loop_stop`: the thread is joined at a point where it holds nothing.
- The sink protocol as one concurrent program: it is a transition system; the class in `MqttFrameSink` covers the bodies of the critical sections.
- A transport shared by several sinks, and two threads that start or stop it at once: one listener and one owner thread are modelled, while other transports may use the library at any time.
- C++ exceptions and memory order: atomics are sequentially consistent steps, callbacks return normally, and allocation succeeds.
- The sink's configuration of one frame type: frames are the serial numbers of their calls, and validity, serialization and delivery are free choices.
- The two critical sections of the fast aggregator's `stop`, and a push between them: `stop` is one step there.
- Logging, metrics reports and rate-limited counters: they do not affect results.
- Floating-point rounding, NaN, infinities and Qt's fuzzy comparison: reals and exact equality.
- The distance function of the speed limiter is a parameter with the laws of `std::hypot`; no square root is computed.
- GStreamer, OpenCV, Qt widgets and QML: of the blur processor only history and selection, of the table only its update.
- The iteration order of hashes: the missing objects of a snapshot form a map, so their order in the list is left open.
- Object type, distance, zone and channel fields that the tracker only passes on.
- The table's ids are ordered integers instead of strings; `std::sort` is an insertion sort, so the order of rows with equal ids is fixed where the original's is not.
- The validity of an RTSP address and the insertion of credentials: the test is a parameter and addresses come with credentials.
- JSON types, ranges and error messages of the other configuration settings, environment overrides, and reading and replacing the file.
- JSON string escapes, duplicate keys' diagnostics and conversions from a fraction to an integer: no message that the system writes contains them.
- The digits of a floating-point number: the text of a double is an opaque token of at most 24 characters that the parser gives back unchanged.
- The byte codec, checksums, channel sets, the concatenating fuser, the hardware event dispatcher, zone, risk and parking logic, login and account storage: small and self-contained, or not part of this repository.
