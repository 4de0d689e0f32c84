# Verified model of the camera runtime and its realtime delivery chain

Skylark is a camera system in three parts: a Go worker that pulls RTSP streams, transcodes them to WebRTC
and detects persons; a TypeScript backend that stores cameras and alerts; and a React client that shows them
live. This project models in Dafny the concurrent and stateful core of the three, and proves what its
documentation promises of it, for every input, every run and every interleaving.

Verify it with `dafny verify dfyconfig.toml`.

## How it is organised

| module | subject |
|---|---|
| `Common` | options, subsequences, runs of a state machine |
| `Retry` | the backoff helper every POST and every pipeline restart goes through |
| `SpacingGate` | the "at most one per window" decision shared by alert dedup and frame throttle |
| `Detection`, `Publisher` | from network output to canonical event, and the per-camera dedup gate |
| `CameraStats`, `AlertRate` | the rolling window, and how many detections per minute the gate lets it report |
| `Rtsp`, `Ingestion` | framing and throttling of the byte stream, and its handshake with detection |
| `CameraLifecycle`, `Manager` | one camera instance with its goroutines, and the mutex-protected map of instances |
| `StatusProtocol` | the status stored by the backend against the worker's real state |
| `ConnectionRegistry`, `WsHandler`, `Broadcaster` | the server side of the WebSocket: index, connection, fan-out |
| `WebSocketClient`, `SubscriptionSync` | the browser's connection, and client and server sets together |
| `AlertsMerge` | the bounded live alert list |

Code that updates fields or arrays is modelled by classes and loops whose contracts give the whole new state
(`Publisher.Publisher`, `CameraStats.Counters`, `Manager.Manager`, `ConnectionRegistry.ConnectionRegistry`,
`WsHandler.Handler`, `Broadcaster.Broadcaster`, `WebSocketClient.Provider`, and the methods `Retry.Do`,
`Detection.ParseSSD`, `Rtsp.ReadFrames`, `AlertsMerge.Merge`). Concurrency is modelled by state machines: an
`Action` is one atomic step (a region under a lock, a channel operation, a callback up to its next await),
`Step` is the state after it or `None` when it is not enabled, and `Run` is the state after any sequence of them. What the
environment decides (whether a POST succeeds, how FFmpeg ends, when the clock ticks, which branch a select
takes, the random draw) is a parameter of the action, so a statement about every `Run` is a statement about
every behaviour of it.

Times are integer nanoseconds (milliseconds in the client), floating-point values are reals, bytes are 8-bit
vectors, and JSON is its parsed tree.

## What the proofs found

- The `error` branch of the supervisor (worker/internal/camera/camera.go:165-168) cannot be reached: attempts
  are unlimited and neither pipeline returns nil. README.md:115-117 of the repository describes a transition to
  `error` on every failure; in the code a failing camera keeps its state while it restarts
  (`CameraLifecycle.SupervisionNeverGivesUp`).
- A `stop()` that overtakes `start()` of the same instance begins the publications stopped, connecting, and
  leaves the instance in connecting. The late POST is never sent, because its context is already cancelled, so
  the POSTs that are really sent stay in order (`OvertakenRun`, `InitiatedFollowLifeIff`, `PostsFollowLife`).
- A failing pipeline is never stranded: until the camera is cancelled, its next attempt is at most four enabled steps
  away (`NextAttemptBegins`, `FailureRestarts`). Start, stop and removal of a camera complete and achieve what they are
  for (`StatusProtocol.OperationAchieves`, `Manager.CallDoes`), and so does every broadcast whose lookup finds the
  camera (`Broadcaster.BroadcastDelivers`).
- Two overlapping `Start` calls of one id can leave a started instance that is in no map and that nobody will
  stop. This happens exactly when the second lock region overwrites an entry, and never when the starts of each
  id are serial, whatever `Stop` and `StopAll` do meanwhile (`Manager.OrphansIffOverwritten`,
  `OverlappingStartsLoseOne`, `SerialStartsLoseNothing`).
- A `Start` during the `stop()` of a `Stop` finds no entry and starts a second instance of the id beside the one that
  is going down (`Manager.StartDuringStop`). An id has two instances that have not stopped exactly if some install
  finds an entry, an instance being taken down, or a lost one; never when the calls of each id are serial
  (`AlwaysSingleIff`, `SerialCallsSingle`).
- A panic while a frame is handled leaves its ingestion running beside the next attempt's (`PanicLeaksIngest`). Two
  ingests can come to overlap without a further panic exactly when some attempt panicked while its ingest was still
  reading (`OverlapIff`).
- A POST of live that is refused on its four attempts is dropped (worker/internal/eventbus/publisher.go:143-152), and
  a panic between the change to live and its publication skips it. Either leaves connecting stored. Later restarts
  find the state unchanged and publish nothing, so the stored status stays wrong until a user operates on the camera
  (`StatusProtocol.LostPostDisagrees`, `LostPostStays`). With dropped and skipped POSTs and calls that do not reach
  the worker all allowed, stored status and worker disagree exactly after a lost POST of a state that was not stored
  already, an error written because a start call failed, or a stopped written because a stop call failed while the
  worker holds the instance, and until a later POST of the instance gets through or a stop does
  (`DisagreesIffMarked`).
- The reported `confidence` is the maximum over the boxes exactly when some confidence is not negative; the
  detector's threshold ensures it (`ConfidenceIsMaximumIff`, `DetectionsToEvent`).
- Delays grow monotonically exactly when the multiplier is at least one and `InitialDelay` is within `MaxDelay`:
  the first delay is never capped, and a multiplier between zero and one is accepted.
- An owner lookup that read the database before a deletion re-enters the cache after its invalidation. This is
  possible exactly while such a lookup is waiting to continue. The entry is stale but still names the camera's one
  owner (`RecachedIff`, `DeletedCameraStaysCached`, `CachedOwnerIsTheOwner`).
- A fan-out never loses a stored alert; deleting its camera does, because the foreign key cascades
  (backend/migrations/20260101000003-create-alerts.cjs:13-19). A camera deleted between the insert and the
  broadcast lets an alert be offered whose row is gone (`StoredIffCameraKept`, `OfferedAfterDeletion`).
- The twenty-alert live buffer hides nothing exactly as long as twenty alerts of buffer and page rank before every
  copy of an alert that left it (`ShownAlikeIff`, `LosingOldAlertsIsInvisible`). The backend returns no such page:
  live and fetched copies are made from the same row by one serializer. The witness in `NewerCopyShows` is a page it
  cannot return.
- README.md:137-140 of the repository says that events go through a buffered channel to a publisher goroutine. In
  the code `handleFrame` posts synchronously, so a slow POST delays the stamp of a detection. The bound on
  detections per minute holds all the same; given the longest time of a POST it is exact
  (`AlertRate.RateBound`, `RateBoundPrompt`, `RateBoundAttained`). The client's time limit of 10 s
  (worker/internal/httpclient/httpClient.go:41) and the waits of `Retry.PublisherWaitBound` put that time near
  42.5 s, so for longer dedup windows the bound for unlimited POSTs is reached only with scheduling delays.

## Model

| member | source | states |
|---|---|---|
| Manager.EveryInterleaving | worker/internal/camera/manager.go:49-134 | under every interleaving of calls, map entries are keyed by their own id and hold no instance whose stop has begun; stop begins at most once per instance; an instance is claimed by at most one call, one for its own id, and never while it is in the map |
| Manager.NeverReenters | worker/internal/camera/manager.go:57-90 | an instance that left the map never re-enters it, in any continuation |
| Manager.OtherIdsUntouched | worker/internal/camera/manager.go:49-92 | a step of a call for one id changes no other id's entry and no instance of another id |
| Manager.CallStopsWhatItFinds | worker/internal/camera/manager.go:57-134 | the instance of the id that a Start or Stop finds, and every instance that a StopAll finds, leaves the map with its first step; under every interleaving its stop has returned, once, when the call goes on, and so when the call has returned |
| Manager.CallDoes | worker/internal/camera/manager.go:49-134 | from every reachable state a call returns after a bounded number of steps, all its own and all enabled: Start has then put a fresh, started instance under its id, Stop has removed its entry, StopAll has emptied the map, and what they found has stopped |
| Manager.RefusedStartDoesNothing | worker/internal/camera/manager.go:50-55 | a Start without an id or without a URL returns at once and changes nothing |
| Manager.InstalledStartsOnce | worker/internal/camera/manager.go:67-71 | an installed instance is fresh and is started exactly once, by the call that installed it, whatever else runs |
| Manager.OrphansIffOverwritten | worker/internal/camera/manager.go:57-69 | an instance is lost (in no map, claimed by nobody, never stopped) exactly in runs in which a Start overwrites an entry installed while it was waiting |
| Manager.LostByInstall | worker/internal/camera/manager.go:64-69 | installing in the second lock region loses the instance of the entry found there, if any, and no other |
| Manager.SerialStartsLoseNothing | worker/internal/camera/manager.go:49-134 | when Starts of one id do not overlap, every instance is in the map, claimed by exactly one call, or its stop has begun |
| Manager.OverlappingStartsLoseOne | worker/internal/camera/manager.go:57-69 | a concrete run of three overlapping Starts that loses a started instance |
| Manager.AlwaysSingleIff | worker/internal/camera/manager.go:14-18 | in every interleaving no id ever has two instances that have not stopped exactly if no install finds an entry of the id, an instance of it being taken down by a call, or a lost one |
| Manager.SerialCallsSingle | worker/internal/camera/manager.go:49-134 | when all calls that concern an id are serial, it never has two instances that have not stopped |
| Manager.StartDuringStop | worker/internal/camera/manager.go:57-90 | a run in which a Start during the stop of a Stop leaves two instances of one id started and not stopped |
| Manager.Manager.StartRegion | worker/internal/camera/manager.go:57-69 | the first lock region takes a running instance out, or installs the new one at once |
| Manager.Manager.StopRegion | worker/internal/camera/manager.go:79-84 | takes out the entry if there is one, nothing else |
| Manager.Manager.StopAllRegion | worker/internal/camera/manager.go:116-122 | the copying loop collects exactly the instances of the map, which is then empty |
| CameraLifecycle.SupervisionNeverGivesUp | worker/internal/camera/camera.go:145-190 | in every interleaving the error state is unreachable and never published, and until cancellation every started pipeline is running, restarting or waiting for its next attempt, and the statistics keep running |
| CameraLifecycle.NextAttemptBegins | worker/pkg/retry/retry.go:58-84 | from every reachable state that is not cancelled at most four enabled steps, none a cancellation, bring a started pipeline into the operation of its next attempt |
| CameraLifecycle.FailureRestarts | worker/pkg/retry/retry.go:61-84 | however the operation of attempt k ends, in an error or a panic, the backoff timer alone brings the pipeline into attempt k + 1, and nothing else about the camera changes |
| CameraLifecycle.StartCompletes | worker/internal/camera/camera.go:88-113 | from every reachable state at most five enabled steps of its own return from start with both supervisors and the statistics started; when not cancelled, it makes the camera connecting and posts that first |
| CameraLifecycle.AttemptGoesLive | worker/internal/camera/camera.go:174-190 | an attempt whose stream is created makes the camera live; it posts live exactly when the camera was not live already |
| CameraLifecycle.PostsFollowLife | worker/internal/camera/camera.go:75-143 | the states really posted form a subsequence of connecting, live, stopped, and no state is published twice, however often pipelines restart |
| CameraLifecycle.InitiatedFollowLifeIff | worker/internal/camera/camera.go:88-143 | the publications begun follow that order exactly when connecting was not published after stop returned |
| CameraLifecycle.OvertakenRun | worker/internal/camera/camera.go:75-143 | a concrete run in which stop overtakes start: connecting is left as state, but only stopped is posted |
| CameraLifecycle.NothingAfterStop | worker/internal/camera/camera.go:115-132 | once stop is past its wait no pipeline is in or enters an operation, sets the state or publishes |
| CameraLifecycle.StopCompletes | worker/internal/camera/camera.go:115-143 | once start has returned, the shutdown of the worker or the beginning of stop cancels the camera; then no run takes more than 23 further steps, and from every state on the way enabled steps lead to the return of stop, with the camera stopped and stopped posted last: wg.Wait cannot deadlock |
| CameraLifecycle.StepKeeps | worker/internal/camera/camera.go:75-190 | every atomic step of start, stop, supervisors, pipelines and statistics keeps the invariant: WaitGroup count equal to live goroutines, goroutine phases tied to start and stop, publications ordered |
| Ingestion.ExactlyOneHandshake | worker/internal/camera/camera.go:204-231 | each goroutine sends exactly one value, after Run ended and never blocked; runDetection returns only after receiving it exactly once, and always with an error |
| Ingestion.ReturnsRunsResult | worker/internal/camera/camera.go:204-231 | in every run the error runDetection returns is the result of its own ingest, or the error of the context and that only after cancellation; the channel counts as closed only when no frame is left in it |
| Ingestion.AttemptCompletes | worker/internal/camera/camera.go:195-232 | from every reachable attempt that has not ended, whatever it is doing, the end of its process and at most three further steps, all enabled, make runDetection return |
| Ingestion.EndIsReturned | worker/internal/camera/camera.go:215-227 | the end of FFmpeg is what runDetection returns, whether the result or the closed channel is seen first |
| Ingestion.CancelIsReturned | worker/internal/camera/camera.go:212-214 | a cancelled select can leave at once; runDetection then waits for its ingest and returns the error of the context |
| Ingestion.FrameIsHandled | worker/internal/camera/camera.go:221-229 | an offered frame is taken and handled, and the select goes on |
| Ingestion.CancelIsFinal | worker/pkg/retry/retry.go:58-61 | cancellation is always possible, and no attempt begins after it |
| Ingestion.WaitCompletes | worker/internal/camera/camera.go:210-231 | no deadlock: from every reachable wait for the result at most three enabled steps make runDetection return |
| Ingestion.AtMostOneIngest | worker/internal/camera/camera.go:195-232 | across restarts an ingest of an earlier attempt is alive only if that attempt panicked, and no earlier detector is open |
| Ingestion.NoPanicsNoOverlap | worker/internal/camera/camera.go:195-232 | in runs without panics at most one ingest and one detector are alive |
| Ingestion.OverlapIff | worker/internal/camera/camera.go:149-232 | before cancellation a run can go on without panics to two ingests alive at once exactly when some attempt panicked while its ingest is still reading |
| Ingestion.PanicLeaksIngest | worker/internal/camera/camera.go:152-158 | a concrete run in which a recovered panic leaves two ingests alive |
| Retry.Do | worker/pkg/retry/retry.go:47-85 | the loop ends as the declarative meaning of the environment says, and waits the scheduled, jittered delay before every further attempt |
| Retry.OutcomeUnique | worker/pkg/retry/retry.go:47-85 | that meaning determines outcome and number of operations |
| Retry.OutcomeAndTermination | worker/pkg/retry/retry.go:43-85 | nil iff the last operation run succeeded; an operation's error iff exactly MaxAttempts > 0 operations failed; a capped call runs at most MaxAttempts; no operation starts at or after a loop head that sees cancellation |
| Retry.UnlimitedNeverGivesUp | worker/pkg/retry/retry.go:13-15 | with unlimited attempts and an operation that never succeeds, the call ends iff cancellation is seen, with the context's error |
| Retry.BackoffClosedForm | worker/pkg/retry/retry.go:47-94 | for a whole multiplier the k-th delay is min(MaxDelay, initial * mult^k), except that the first is not capped |
| Retry.SupervisorSchedule | worker/pkg/retry/retry.go:29-38 | the restarts of a pipeline wait half a second doubling up to half a minute, before jitter |
| Retry.BackoffMonotoneIff | worker/pkg/retry/retry.go:47-94 | for every configuration, delays never shrink exactly when the multiplier is at least one and the initial delay is within the cap or there is none |
| Retry.JitterWithinFifth | worker/pkg/retry/retry.go:96-109 | a jittered delay is within 20 percent of the unjittered one, up to the dropped fraction |
| Retry.JitterFollowsDraw | worker/pkg/retry/retry.go:96-109 | the jittered delay is the delay times one plus a fifth of the draw, up to the dropped fraction |
| Retry.PublisherWaitBound | worker/internal/eventbus/publisher.go:46-62 | one publication waits at most 2.52 s over its four attempts, and a dropped one at least 1.68 s |
| SpacingGate.AdmittedSpaced | worker/internal/eventbus/publisher.go:120-133 | admitted times are a subsequence of the offered ones, at least a window apart |
| SpacingGate.GreedyIsMaximal | worker/internal/eventbus/publisher.go:120-133 | no selection of the offered times that keeps the spacing is larger than the admitted one |
| SpacingGate.ThinnedSpaced | worker/internal/rtsp/rtspClient.go:163-182 | dropping any of the admitted calls keeps the rest a window apart |
| Publisher.NonInterference | worker/internal/eventbus/publisher.go:122-141 | in any interleaving, resets included, a camera's verdicts depend on its own calls and memory only |
| Publisher.SingleCameraGate | worker/internal/eventbus/publisher.go:122-133 | without a reset the camera's verdicts are those of a gate of its own |
| Publisher.DedupGateOptimal | worker/internal/eventbus/publisher.go:120-133 | in any interleaving the alerts passed for a camera are spaced and at least as many as in any spaced selection of its offers |
| Publisher.Publisher.Allow | worker/internal/eventbus/publisher.go:122-133 | passes iff no alert of this camera is within the window, and remembers the time exactly then |
| Publisher.Publisher.ResetDedup | worker/internal/eventbus/publisher.go:135-141 | forgets this camera and no other |
| Publisher.Publisher.Send | worker/internal/eventbus/publisher.go:143-152 | a POST ends as retry prescribes, after at most four operations, and its failure reaches nobody |
| Publisher.Publisher.PublishDetections | worker/internal/eventbus/publisher.go:64-104 | returns true iff there are detections and the gate passes; then the event lists the clamped boxes in order, with their number and the peak confidence, and is posted as retry prescribes, whatever becomes of it; otherwise nothing is posted |
| Publisher.ConfidenceIsMaximumIff | worker/internal/eventbus/publisher.go:77-95 | the confidence is the largest box confidence iff some confidence is not negative |
| Publisher.BoxesNormalised | worker/internal/eventbus/publisher.go:77-90 | whatever boxes a caller hands over, each of their four numbers is posted as the nearest one of the unit interval, with the confidence unchanged |
| Publisher.DetectionsToEvent | worker/internal/eventbus/publisher.go:69-104 | for boxes from the detector the second clamp changes nothing, all boxes are in the frame, the count is at least one and the confidence is the maximum |
| Detection.ParseSSD | worker/internal/detection/detector.go:98-149 | the boxes of exactly the reporting rows in row order; nothing for an empty, unreadable or short blob |
| Detection.PersonRowsExact | worker/internal/detection/detector.go:119-139 | the rows kept are strictly increasing and are exactly those with the person class, enough confidence and a non-empty clamped box |
| Detection.ReportedIff | worker/internal/detection/detector.go:122-139 | a row is reported exactly when its class is 15, its confidence reaches the threshold, and its rectangle meets the unit square in more than an edge |
| Detection.BoxIsVisiblePart | worker/internal/detection/detector.go:133-146 | the box of a reported row contains exactly the points of its rectangle that lie in the unit square |
| Detection.ClampIsNearest | worker/internal/detection/detector.go:162-170 | a clamped value is in the unit interval, and no number of the interval is nearer to the value |
| Detection.BoxesInFrame | worker/internal/detection/detector.go:133-146 | every box satisfies 0 <= x < x+w <= 1 and 0 <= y < y+h <= 1 and reaches the threshold |
| CameraStats.Counters.CountFrame | worker/internal/camera/camera.go:236-238 | counts one frame, leaving the window alone |
| CameraStats.Counters.RecordDetection | worker/internal/camera/camera.go:253-258 | appends the time to the window, also when the backing array must grow |
| CameraStats.Counters.EmitStats | worker/internal/camera/camera.go:278-292 | takes the frame count, compacts the window in its own array to the times of the last minute in order, and reports their number |
| CameraStats.KeptExactly | worker/internal/camera/camera.go:283-290 | pruning keeps, in order, every time later than the cutoff as often as it was recorded, and no other |
| CameraStats.PruningLosesNothing | worker/internal/camera/camera.go:253-292 | after any run the window equals the whole unpruned history filtered by the latest cutoff |
| CameraStats.FramesConserved | worker/internal/camera/camera.go:235-281 | frames taken by ticks plus frames still counted equal frames handled |
| AlertRate.GatesAndStamps | worker/internal/camera/camera.go:248-256 | in every run gate decisions and later stamps alternate, gate decisions are a window apart, and each stamp follows its decision within the longest POST |
| AlertRate.RateBound | worker/internal/camera/camera.go:276-303 | at every tick detectionsPerMinute is at most one more than a minute divided by the dedup window, rounded up |
| AlertRate.RateBoundMillis | worker/internal/eventbus/publisher.go:48-62 | the same for the window as configured in milliseconds: ceil(60000/W) + 1 |
| AlertRate.RateBoundPrompt | worker/internal/camera/camera.go:248-303 | when no POST takes longer than a given time, detectionsPerMinute is at most a minute plus the smaller of that time and the window, divided by the window, rounded up |
| AlertRate.RateBoundAttained | worker/internal/camera/camera.go:248-291 | for every window and every longest POST some run within it reports exactly that many, so the bound is tight |
| Rtsp.ReadFrames | worker/internal/rtsp/rtspClient.go:148-183 | frames are the first exact-size blocks of the stream; those sent are the ones the throttle admits while the slot is free; the loop ends at the first cancellation it sees, or when less than one frame is left over, with the pipe's error, with end of file when nothing is left, and otherwise with unexpected end of file |
| Rtsp.FramesArePrefix | worker/internal/rtsp/rtspClient.go:156-159 | the frames put together are a prefix of the stream |
| Rtsp.SentSpaced | worker/internal/rtsp/rtspClient.go:161-182 | frames sent are a subsequence of the frames read, captured at least an interval apart, although a dropped frame also advances the throttle |
| StatusProtocol.StatusAgreement | backend/src/services/cameras.service.ts:46-92 | with one user operation at a time, a responsive worker and no lost POST, the stored status of every camera not being operated on is its instance's state (or live is about to be published), and stopped without an instance, restarts and deletions included |
| StatusProtocol.NoInstanceWithoutCamera | backend/src/services/cameras.service.ts:47-60 | under the same assumptions the worker holds no instance of a camera that does not exist |
| StatusProtocol.OperationAchieves | backend/src/services/cameras.service.ts:46-92 | an operation on an existing camera begins at once when none is under way, and is the one under way until it is over; in every faultless run the worker then holds a running instance that was not cancelled (start), holds none and stopped is stored (stop), or neither row nor instance is left (remove); from every state on the way at most 31 enabled steps complete it |
| StatusProtocol.StartRenews | backend/src/services/cameras.service.ts:62-77 | a start stores connecting and, in at most 31 enabled steps, replaces the instance, running or not, by a new one at its first attempts with connecting stored; four more steps make it live, and live is stored |
| StatusProtocol.OldInstanceIsOver | worker/internal/camera/manager.go:57-92 | in every run, faults included, an operation goes past the old instance only when all goroutines of that are over, with the publication of stopped, which is stored if it gets through |
| StatusProtocol.LastPostStored | backend/src/services/alerts.service.ts:41-48 | whatever steps an instance takes by itself, it takes them in the whole system too, and the last state it posts is stored |
| StatusProtocol.FailedCallEnds | backend/src/services/cameras.service.ts:47-92 | a call that does not reach the worker still ends the operation: a start stores error, a stop stores stopped, a removal deletes the row, and no instance changes |
| StatusProtocol.CreationAtAnyTime | backend/src/services/cameras.service.ts:30-39 | a new camera can be created at any time, is stopped, and changes nothing about the others |
| StatusProtocol.UnreachableWorkerDisagrees | backend/src/services/cameras.service.ts:67-74 | a start call that does not reach the worker leaves error stored while the worker holds nothing |
| StatusProtocol.LostPostDisagrees | worker/internal/eventbus/publisher.go:143-152 | a run in which a POST of live that is dropped after its attempts, or skipped by a panic before it, leaves connecting stored for a live instance |
| StatusProtocol.DisagreesIffMarked | backend/src/services/cameras.service.ts:46-92 | in every run, whatever calls do not reach the worker and whatever POSTs are dropped after their attempts or skipped by a panic, the stored status of a camera not being operated on differs from its instance's state (from stopped without an instance) exactly when a fault marked it and nothing repaired it since |
| StatusProtocol.LostPostStays | worker/internal/eventbus/publisher.go:143-152 | when the instance is live, its publication over and live not stored, however that POST was lost, no continuation without an operation on that camera changes the stored status |
| StatusProtocol.StepKeeps | backend/src/services/alerts.service.ts:41-48 | every step, dropped and skipped POSTs and failed calls included, keeps stored status and marks tied: unmarked is right, marked is wrong |
| ConnectionRegistry.FiledEntries | backend/src/websocket/connectionRegistry.ts:25-33 | filing a connection changes exactly its own entry and leaves no user key with an empty map |
| ConnectionRegistry.UnfiledEntries | backend/src/websocket/connectionRegistry.ts:35-41 | removing takes out exactly one entry and, with the last one, the user's key |
| ConnectionRegistry.ConnectionRegistry.Add | backend/src/websocket/connectionRegistry.ts:25-33 | the index after adding, properly keyed |
| ConnectionRegistry.ConnectionRegistry.Remove | backend/src/websocket/connectionRegistry.ts:35-41 | the index after removing, for unknown users too |
| ConnectionRegistry.ConnectionRegistry.AddSubscriptions | backend/src/websocket/connectionRegistry.ts:47-50 | the set becomes explicit and gains exactly the named cameras |
| ConnectionRegistry.ConnectionRegistry.RemoveSubscriptions | backend/src/websocket/connectionRegistry.ts:52-55 | an explicit set loses exactly the named cameras; a connection wanting everything is left alone |
| ConnectionRegistry.ConnectionRegistry.DeliverToUserForCamera | backend/src/websocket/connectionRegistry.ts:57-78 | each of the user's connections that wants the camera and whose send works gets the message once, the user's others get nothing, nobody else is touched, and the count is their number |
| ConnectionRegistry.AudienceIds | backend/src/websocket/connectionRegistry.ts:62-76 | the connections the delivery loop reaches are, by id, those offered the message in the index seen as a value |
| ConnectionRegistry.ViewExists | backend/src/websocket/connectionRegistry.ts:22-23 | every index of connections can be seen as a value: each connection by its subscriptions |
| ConnectionRegistry.ShowsFiled | backend/src/websocket/connectionRegistry.ts:25-33 | adding a connection files its subscriptions in that view |
| ConnectionRegistry.ShowsUnfiled | backend/src/websocket/connectionRegistry.ts:35-41 | removing one unfiles it there |
| ConnectionRegistry.ShowsChanged | backend/src/websocket/connectionRegistry.ts:47-55 | changing one connection's set in place changes its entry of the view and no other |
| WsHandler.ParseOfEncode | backend/src/websocket/wsHandler.ts:24-39 | every message a client can send is parsed back to itself |
| WsHandler.ParsedIff | backend/src/websocket/wsHandler.ts:24-39 | a frame is recognised as a message exactly when it is text that parses to an object with all fields of that message, whatever else it carries |
| WsHandler.StringsIff | backend/src/websocket/wsHandler.ts:28-30 | an array counts as ids iff all its elements are strings, and then yields them in order |
| WsHandler.Handler.OnOpen | backend/src/websocket/wsHandler.ts:63-77 | an authorized connection is registered wanting everything; an unauthorized one is not registered |
| WsHandler.Handler.OnMessage | backend/src/websocket/wsHandler.ts:79-95 | applies the parsed message to this connection's set only; unrecognised text and pings change nothing |
| WsHandler.Handler.OnClose | backend/src/websocket/wsHandler.ts:97-100 | the connection's own entry is taken out, and nothing when it was not registered |
| WsHandler.Handler.OnError | backend/src/websocket/wsHandler.ts:102-105 | the same on an error |
| WsHandler.OpenedShown | backend/src/websocket/wsHandler.ts:69-75 | the registry after an authorized open, seen as a value, is the index that Callback, the step of the interleavings, gives: this connection filed and wanting everything |
| WsHandler.MessageShown | backend/src/websocket/wsHandler.ts:79-95 | the registry after a message changed the connection's set, seen as a value, is the index that Callback gives |
| WsHandler.ClosedShown | backend/src/websocket/wsHandler.ts:97-105 | the registry after a close or an error removed the connection, seen as a value, is the index that Callback gives |
| WsHandler.RegisteredIff | backend/src/websocket/wsHandler.ts:47-107 | registered iff it opened authorized and has neither closed nor errored |
| WsHandler.SubscriptionsFromHistory | backend/src/websocket/wsHandler.ts:79-95 | the set is null iff no valid subscribe was processed, and otherwise holds a camera iff some subscribe named it and no later unsubscribe did |
| WsHandler.WantsIff | backend/src/websocket/connectionRegistry.ts:57-68 | a connection wants the events of a camera exactly when it is open and since then processed no subscribe, or one that named the camera and no later unsubscribe that did |
| Broadcaster.CachedOwnerIsTheOwner | backend/src/websocket/broadcaster.ts:14-27 | in every run each cached owner is the one owner the camera ever had, also when a deletion falls into an awaited lookup |
| Broadcaster.FanOutExact | backend/src/websocket/broadcaster.ts:29-62 | whenever a step of any run delivers from the nested index, it reaches exactly the sockets of the owner of the camera that, by their own histories of open, messages, close and error, are open and since then sent no valid subscribe, or one that named the camera and no later unsubscribe that did |
| Broadcaster.BroadcastDelivers | backend/src/websocket/broadcaster.ts:14-62 | every broadcast of a stored alert or of an ephemeral message for a camera with a non-empty owner gets out, owner cached or not: whatever runs, provided a lookup that reads finds the camera, its next step is always enabled, and its own steps, four at most in all, deliver it once, to the sockets of FanOutExact |
| Broadcaster.GoneCameraIsSilent | backend/src/websocket/broadcaster.ts:19-38 | a lookup that does not find the camera delivers nothing and caches nothing |
| Broadcaster.HistoriesGrow | backend/src/websocket/wsHandler.ts:41-107 | a new socket has no history; whatever happens to a socket is added to its own history and to no other, and it opens once |
| Broadcaster.LookupDelivers | backend/src/websocket/broadcaster.ts:16-38 | a lookup that reads an existing camera with a non-empty owner caches it and gets its message out to the connections of that moment, whatever runs between the read, the continuation and the delivery |
| Broadcaster.RecachedIff | backend/src/websocket/broadcaster.ts:16-27 | an invalidation is always possible and uncaches the camera; after it a deleted camera can be cached again exactly when a lookup that had read its owner is still waiting to continue |
| Broadcaster.DeletedCameraStaysCached | backend/src/services/cameras.service.ts:58-59 | a run in which the entry of a deleted camera is cached again after its invalidation |
| Broadcaster.StoredThenOfferedOnce | backend/src/services/alerts.service.ts:20-34 | in every run an alert offered to anyone had been stored for that camera, is offered at most once, and is still stored exactly while the camera exists |
| Broadcaster.StoredIffCameraKept | backend/migrations/20260101000003-create-alerts.cjs:13-19 | whatever runs after an alert was stored, it is stored exactly if its camera has not been deleted since |
| Broadcaster.OfferedAfterDeletion | backend/src/services/alerts.service.ts:25-34 | a run in which an alert is offered after the deletion of its camera removed it |
| Broadcaster.IndexKept | backend/src/websocket/wsHandler.ts:62-106 | every socket event keeps the nested index equal to what the sockets' own histories say, without empty users |
| Broadcaster.Broadcaster.ResolveStart | backend/src/websocket/broadcaster.ts:16-18 | answers from the cache iff it holds a non-empty owner |
| Broadcaster.Broadcaster.ResolveResume | backend/src/websocket/broadcaster.ts:19-21 | caches an owner that was found and is not empty, and returns what was found |
| Broadcaster.Broadcaster.Deliver | backend/src/websocket/broadcaster.ts:30-38 | without an owner nothing happens; with one exactly the wanting connections of that user get the message |
| WebSocketClient.SingleConnection | frontend/src/hooks/useWebSocket.ts:79-215 | in every reachable state at most one socket is connecting or open, a pending reconnect means there is none, a ping timer means there is a current socket, an open socket is the current one and has a ping timer, and a provider that should run has a current socket or a pending reconnect |
| WebSocketClient.QuietAfterLogout | frontend/src/hooks/useWebSocket.ts:188-215 | after logout or unmount, until the next login, no timer runs, there is no current socket and no socket that could still fire; after a logout the status is idle all that time |
| WebSocketClient.GetsConnected | frontend/src/hooks/useWebSocket.ts:103-186 | from every reachable state in which the provider should run and has no open socket, at most three enabled steps, none a login, lead to an open socket that has just subscribed to the registered cameras |
| WebSocketClient.LossIsNoticed | frontend/src/hooks/useWebSocket.ts:158-170 | from every reachable state the network can end the current socket, with or without a closing phase, and its end leaves a pending reconnect and no ping timer |
| WebSocketClient.LoginConnects | frontend/src/hooks/useWebSocket.ts:188-193 | a login makes a socket at once, or schedules the next try when the constructor throws |
| WebSocketClient.AttemptsAreFailures | frontend/src/hooks/useWebSocket.ts:124-186 | the number the backoff doubles with is the number of failed tries since the socket was last open or the user logged in |
| WebSocketClient.StatusShown | frontend/src/hooks/useWebSocket.ts:113-167 | in every reachable state an open socket is shown as open, and a connecting one or a pending reconnect as connecting |
| WebSocketClient.HeartbeatGoesOut | frontend/src/hooks/useWebSocket.ts:128-132 | whenever the socket is open a ping can fire and is sent on it |
| WebSocketClient.RegisterAgainIff | frontend/src/hooks/useWebSocket.ts:217-229 | registering the same ids in another order changes and sends nothing; any other ids are stored and subscribed to |
| WebSocketClient.Provider.SendMessage | frontend/src/hooks/useWebSocket.ts:79-84 | transmits on the current socket iff it is open |
| WebSocketClient.Provider.SubscribeAll | frontend/src/hooks/useWebSocket.ts:86-90 | asks for all registered cameras, and for nothing when there are none |
| WebSocketClient.Provider.Schedule | frontend/src/hooks/useWebSocket.ts:174-186 | starts one timer unless stopped or already waiting; the delay is the doubled, capped backoff plus less than a second |
| WebSocketClient.Provider.TryConnect | frontend/src/hooks/useWebSocket.ts:103-122 | makes a socket only when it should run, has a token and none is connecting or open; a constructor that throws leads to a reconnect |
| WebSocketClient.Provider.HandleOpen | frontend/src/hooks/useWebSocket.ts:124-133 | resets the attempts, subscribes and starts the ping timer |
| WebSocketClient.Provider.HandleClose | frontend/src/hooks/useWebSocket.ts:158-170 | forgets socket and ping timer, and reconnects iff it should run |
| WebSocketClient.Provider.TearDown | frontend/src/hooks/useWebSocket.ts:205-213 | stops, clears both timers, detaches and closes the current socket |
| WebSocketClient.Provider.RunAuthEffect | frontend/src/hooks/useWebSocket.ts:188-215 | tears the old connection down and connects again iff authenticated with a token |
| WebSocketClient.Provider.Register | frontend/src/hooks/useWebSocket.ts:217-229 | stores the sorted ids and subscribes only when they changed |
| SubscriptionSync.SubscriptionCoverage | frontend/src/hooks/useWebSocket.ts:86-229 | in every reachable state with an open socket, however many messages the server has processed, after those in flight it wants every camera of the latest registration |
| SubscriptionSync.ProcessedThenInFlight | backend/src/websocket/connectionRegistry.ts:47-55 | processing messages in order can be split at any point |
| SubscriptionSync.SortKeepsIds | frontend/src/hooks/useWebSocket.ts:219 | sorting neither loses nor invents ids |
| WebSocketClient.SortSorts | frontend/src/hooks/useWebSocket.ts:219 | sorting keeps every id as often as it was registered, in ascending order |
| AlertsMerge.Merge | frontend/src/hooks/useAlerts.ts:30-44 | the loop, the sort and the cut give the first occurrence of each id, newest first, at most twenty |
| AlertsMerge.BufferIsNewest | frontend/src/hooks/useAlerts.ts:22-28 | with distinct ids the live buffer is the newest twenty alerts, newest first |
| AlertsMerge.BufferStaysDistinct | frontend/src/hooks/useAlerts.ts:22-28 | ids in the live buffer are distinct whatever arrives; an alert whose id is there changes nothing, any other comes first and pushes out at most the twentieth |
| AlertsMerge.DedupKeepsFirst | frontend/src/hooks/useAlerts.ts:30-38 | the merge keeps of every id exactly one alert, its first |
| AlertsMerge.SortIsStable | frontend/src/hooks/useAlerts.ts:39-42 | the specified sort is descending and keeps the order of alerts of one instant |
| AlertsMerge.ShownAlikeIff | frontend/src/hooks/useAlerts.ts:22-44 | for live alerts with distinct ids in chronological order, a page shows the same list from the bounded buffer as from the unbounded history exactly when, among the alerts of buffer and page, at least twenty rank before every copy of an alert that left the buffer |
| AlertsMerge.NoneComesBackIff | frontend/src/hooks/useAlerts.ts:22-44 | equivalently, when the list shows no alert that left the buffer |
| AlertsMerge.SortedAtRank | frontend/src/hooks/useAlerts.ts:39-42 | the sort puts every alert at its rank, the number of those that are newer, or as new and stood before it |
| AlertsMerge.LosingOldAlertsIsInvisible | frontend/src/hooks/useAlerts.ts:22-44 | the two lists are equal for every page whose copies of alerts that left the buffer are not newer than the oldest alert still in it |
| AlertsMerge.SameCopiesNotNewer | frontend/src/hooks/useAlerts.ts:22-44 | a page whose copies carry the timestamps of the live alerts has no such newer copy |
| AlertsMerge.InvisibleToAnyPageIff | frontend/src/hooks/useAlerts.ts:22-44 | all conceivable pages, also ones no backend returns, show the same list exactly while no alert has left the buffer |
| AlertsMerge.MergedShape | frontend/src/hooks/useAlerts.ts:39-43 | what is shown is all alerts that the deduplication leaves, or twenty of them, newest first |

## Left out

- FFmpeg, pion WebRTC, the UDP mux, OpenCV inference: foreign calls; their results are parameters of the actions.
- HTTP routing, JWT, Sequelize, migrations, Zod schemas, React components, `useWebRTC`, loggers: plumbing or UI.
- Pagination, serializers, duration parsing, `round1` and the frames-per-second quotient, `stats()` and `sendToUser`
  of the registry, `Manager.Count`: they would only add easy members.
- The connected, pong and unauthorized replies of the WebSocket handler, and the dispatch of server messages to
  handlers in the client: nothing else depends on them.
- HandleOffer and the swap of the stream pointer under the camera's lock: nothing modelled here depends on them.
- A camera's goroutines, the ingestion handshake, the manager's calls, the status protocol and the awaited
  owner lookup are state machines on values, because the point of each is what happens between the steps of
  concurrent calls, which a method call would make one step. The lock regions and callbacks themselves are also
  methods where they change a map, a set or an array.
- Rounding, NaN and overflow of floating-point numbers: reals are used, durations are unbounded integers.
- The order in which a JavaScript Map or a Go map is iterated: any order is allowed.
- The library sorts are specified functions (stable, descending; code units ascending), not re-implemented in place.
- AlertRate.RateBound: assumes a clock that does not run backwards, detections handled one after the other and no
  reset of the dedup gate in between, as a restart of the camera would cause.
- StatusProtocol.StatusAgreement: a POST of a state that is not lost and its storing are one step, user operations run
  one at a time, and a call to the worker that fails has not reached it. DisagreesIffMarked covers lost POSTs and
  failed calls.
- StatusProtocol.DisagreesIffMarked: a call that times out after 8 s while the worker still acts on it
  (backend/src/helpers/workerClient.helper.ts:10) is outside its faults. A write of a status always stores it;
  Sequelize leaves out fields that did not change since the row was loaded, so a stop that loaded stopped keeps what
  was stored meanwhile.
- Retry.Do: the environment is a finite script, so a call it does not finish ends as `Pending`; `Rtsp.ReadFrames`
  has `StillReading` for the same reason.
- CameraStats.Counters.RecordDetection: the growth factor of a Go slice is not fixed by the language; the one here is
  an example.
- WebSocketClient.SingleConnection: a socket closed by the client fires no later events.
- SubscriptionSync.SubscriptionCoverage: the connection is one the server authorized, and messages arrive in order.
- Broadcaster.FanOutExact: a camera's owner never changes, and ids of cameras, alerts and connections, which are
  random, are not reused. Failing sends are in ConnectionRegistry.DeliverToUserForCamera. The heap index and the
  index as a value are tied by the lemmas ending in Shown, ShowsFiled, ShowsUnfiled, ShowsChanged and AudienceIds, not
  by the contracts of the methods of Handler.
- setSubscriptions of the registry: nothing in the repository calls it.
- Fairness: the theorems on completion say that the steps are enabled and bounded in number, not that a scheduler, a
  network or FFmpeg takes them.
