# vmb-rs: the capture lifecycle, verified

vmb-rs runs a machine-vision camera through a port, `VmbRuntime`. The domain
(`Camera`, `DiscoveryRegistration`, `VmbSystem`) makes the calls; an in-memory
fake and an FFI adapter over the Vimba X C library answer them. This project
models the domain, both adapters, the part of the SDK the FFI adapter relies on
and the process-global `STARTED` flag, and proves what the pieces promise each
other. `dafny verify dfyconfig.toml` checks everything.

## How the model is put together

* `Port` is the vocabulary: calls, replies, errors and the shared 64-bit id
  counter, which wraps.
* `CameraProgram` is `Camera` as a program that makes one port call at a time:
  `Next` is the call it is about to make, `Advance` where the reply takes it.
  The same program runs over either adapter. `Domain` holds any number of open
  cameras and discovery subscriptions and the history of their calls; any of
  them may make the next call, and any fallible call may fail.
* `FakeModel` and `FfiModel` are the two adapters on values. `FakeWorld` and
  `FfiWorld` are their runs: finite sequences of scheduling decisions, for the
  FFI adapter interleaved with the SDK's frame callbacks one stage at a time
  (enter, dispatch, hand back).
* `FakeRuntime`, `CameraClient`, `DiscoveryClient`, `FfiRuntime` and the classes
  in `Started` are the mutable objects of the source, each method proved to have
  exactly the effect of the model's functions.
* `TableInvariant`, `RunTheorems`, `CaptureContract`, `Protocol` and
  `FailureInjection` are about the fake; `DrivenCalls` says which calls a method
  makes there and what the log shows of them, `MethodRuns` that the methods occur
  in the interleaved runs as they are; `Simulation`, `FrameLiveness`,
  `FrameTheorems`, `CaptureWindow` and `TwoCameras` about the FFI adapter;
  `Started` and `ListCameras` stand alone. `DiscoveryContexts` is the fine-grained
  model of the discovery calls; `DiscoveryCalls` ties it to the FFI adapter.

## What is assumed

* Runs draw fewer than 2^64 ids. `Port.DistinctIdsIff` and `Port.NonZeroIdsIff`
  say exactly how far the counter carries.
* A port call is atomic with respect to other port calls and to the trampoline
  stages, and each lock region is one step. `Started` and `DiscoveryContexts` are
  finer: every atomic operation and every SDK call is a step of its own.
* The SDK: revoking a camera's frames succeeds and, like a successful
  capture end, returns only when no callback of that camera is running; open
  cameras have distinct SDK handles; the SDK calls back only with queued frames
  of a capturing camera. Everything else it may refuse. The result about
  discovery callbacks in progress also assumes that unregistering waits for the
  callbacks of the registration it drops. The allocator never returns the
  address of a live box. Camera names contain no NUL byte, which the FFI adapter
  rejects and the fake accepts.
* Separated runs: no camera revokes its frames while another camera has slots
  announced. It is needed because `frame_revoke_all` of the FFI adapter clears
  the slots of every camera (`vmb-ffi/src/runtime.rs:332-336`).

## Where code and comments disagree

The model follows the code.

* `vmb-core/src/port.rs:126-128` says `frame_revoke_all` is for one camera. The
  fake does that; the FFI adapter clears all cameras. The weaker hypothesis "at
  most one camera ever owns announced frames" does not rescue the FFI adapter:
  the unwind of a second camera whose first announce fails also revokes
  (`TwoCameras.OneHolderIsNotEnough`). `FrameTheorems.RevokeLeavesLivePointersIff`
  and `Simulation.RevokeMatchesIff` give the exact condition.
* `vmb-core/src/port.rs:34-36` says the fake enforces that frames are queued only
  during a capture. It does not: it accepts a frame exactly when no failure was
  injected (`Protocol.FakeAcceptsQueueIff`), even one never announced on a camera
  never opened (`Protocol.FakeQueuesOutsideCapture`). That nobody queues outside a
  capture is therefore proved from `Camera` (`Protocol.QueueOnlyWhileCapturing`).
* `fail_nth` is documented to count future calls (`vmb-fake/src/lib.rs:198-199`).
  It counts from construction; `FailureInjection.FailNthHitsFutureCallIff` says
  when the two coincide.
* `unregister_discovery` names only the trampoline function, which all
  registrations share, so the SDK may drop another registration's context.
  `DiscoveryContexts.UnregisterIsSafeForCallerIff` gives the exact condition.
* `STARTED` is described as matching the SDK's lifecycle
  (`vmb-ffi/src/state.rs:23-26`). A startup that overtakes a pending `VmbShutdown`
  leaves it set over a stopped SDK; `Started.FlagAgreesIff` says exactly when.

## Model

The results about whole runs come first, adapter by adapter, then the objects
and their methods.

| member | source | states |
|---|---|---|
| `TableInvariant.TablesAlwaysMatch` | vmb-fake/src/lib.rs:417-463 | in every interleaving of any number of cameras and subscriptions, slots, captures, callbacks and registrations are exactly the union of what their program points dictate, and no id is used for two things |
| `TableInvariant.StepKeepsMatch` | vmb-core/src/camera.rs:84-157 | one call of any client, or entering a method, keeps the tables equal to what the clients dictate |
| `CaptureContract.StartAllOrNothing` | vmb-core/src/camera.rs:75-127 | for every buffer count and every choice of failing calls: Ok with exactly that many fresh slots, all announced and queued in order under one callback, or the first error with no session and the tables as found |
| `CaptureContract.StartOutcome` | vmb-core/src/camera.rs:98-127 | Ok if and only if every call succeeded; otherwise the error of the first call that failed |
| `CaptureContract.DriveKeepsPrimed` | vmb-core/src/camera.rs:88-157 | at the end of any method the tables are those found plus exactly what the camera holds |
| `CaptureContract.StopRestores` | vmb-core/src/camera.rs:132-147 | stop returns the tables to their state before the capture, whatever AcquisitionStop answers |
| `CaptureContract.DropRestores` | vmb-core/src/camera.rs:150-157 | drop does too, and removes the camera |
| `CaptureContract.StartStopRoundTrip` | vmb-core/src/camera.rs:130-147 | start then stop is the identity on the tables whether or not the start succeeded, and a second stop makes no call |
| `Protocol.EveryRunConforms` | vmb-core/src/port.rs:24-36 | in every run the calls made on any handle, by whomever, are accepted by the ordering automaton: open, rounds of payload size, callback, announces, start, queues in order, acquisition, then the four teardown calls in order, close last |
| `Protocol.OnlyCamerasUseTheirHandles` | vmb-core/src/camera.rs:84-157 | in every run every call on a handle is made by the camera that owns it |
| `Protocol.QueueOnlyWhileCapturing` | vmb-core/src/port.rs:34-36 | every `queue_frame` of every run lies between a successful `capture_start` on its camera and the next `capture_end` |
| `Protocol.FakeAcceptsQueueIff` | vmb-fake/src/lib.rs:437-448 | the fake refuses a frame if and only if a failure was injected: it does not enforce the ordering rule |
| `Protocol.FakeQueuesOutsideCapture` | vmb-fake/src/lib.rs:437-448 | the input that shows it: an unannounced frame queued on an unopened camera of a fresh fake, which is then listed as capturing |
| `RunTheorems.OthersUntouched` | vmb-fake/src/lib.rs:391-463 | a camera's call leaves every other camera's entries as they were |
| `RunTheorems.EverythingDroppedNothingLeft` | vmb-core/src/camera.rs:132-157 | after any run whose cameras and registrations were all dropped, every resource table is empty, whatever failed |
| `RunTheorems.IdleCamerasHoldNothing` | vmb-core/src/camera.rs:75-83 | cameras without a session hold no slot, capture or callback, however many starts failed |
| `RunTheorems.IdleCameraIsUnclaimed` | vmb-core/src/camera.rs:75-90 | at every point of every run an idle camera meets the hypothesis of the all-or-nothing contract |
| `RunTheorems.DeliverIffSession` | vmb-fake/src/lib.rs:321-350 | between methods, `deliver_frame` delivers if and only if the camera has a session with a slot, and to that session's closure |
| `RunTheorems.IdsAlwaysIncrease` | vmb-fake/src/lib.rs:143-150 | all ids of all kinds and all frame ids are non-zero, distinct and increase in the order issued, across all cameras |
| `RunTheorems.NoInsertOverwrites` | vmb-fake/src/lib.rs:143-150 | the next id drawn is a key of no table |
| `RunTheorems.DiscoveryBijection` | vmb-core/src/discovery.rs:38-65 | with no register or drop midway, registrations are in bijection with installed callbacks and live subscriptions |
| `RunTheorems.EmitReachesLiveRegistrations` | vmb-fake/src/lib.rs:304-316 | so emitting an event invokes each live registration's closure exactly once and no dropped or failed one |
| `RunTheorems.RegisteredCallbacksInstalled` | vmb-core/src/discovery.rs:38-65 | at every step of every run, midway through a register or a drop too, each registration's callback is installed with the closure it was given |
| `RunTheorems.RunningStartChangesNothing` | vmb-core/src/camera.rs:88-90 | in every run, a start on a capturing camera makes no call and changes nothing but that camera's answer, `CaptureAlreadyRunning` |
| `MethodRuns.MethodsAreRuns` | vmb-core/src/camera.rs:84-157 | in any world, entering a method and letting its camera run undisturbed has exactly the effect of the method on the fake, and adds to the history exactly the calls the fake logs |
| `DrivenCalls.DriveLogsItsCalls` | vmb-fake/src/lib.rs:383-508 | whatever fails, a method's additions to the fake's log are exactly the calls its program made, in order, each under its own name and the installs by the id returned |
| `DrivenCalls.StartAnnouncesConfiguredSize` | vmb-fake/src/lib.rs:411-423 | every buffer a `start_capture` announces has the size the fake is configured with |
| `DrivenCalls.RunningStartIsRefused` | vmb-core/src/camera.rs:88-90 | a start on a capturing camera makes no call and keeps its session and closure |
| `DrivenCalls.StopMakes` | vmb-core/src/camera.rs:132-147 | a stop makes the five teardown calls in order whatever AcquisitionStop answers, or none without a session |
| `DrivenCalls.DropMakes` | vmb-core/src/camera.rs:150-157 | a drop makes the calls of a stop if a capture is running, and then closes |
| `Simulation.FfiSimulatesFake` | vmb-ffi/src/runtime.rs:149-461 | in every separated run both adapters give equal ids and equal success or failure at every call (the client states and traces are equal) and list the same keys at the same counter |
| `Simulation.CallMatches` | vmb-fake/src/lib.rs:383-508 | one call keeps the adapters in step whatever the SDK answers |
| `Simulation.RevokeMatchesIff` | vmb-ffi/src/runtime.rs:332-336 | revoking keeps the adapters in step if and only if no other camera has a slot |
| `Simulation.OnlySdkErrors` | vmb-ffi/src/runtime.rs:463-475 | none of the FFI adapter's unknown-id errors is ever returned: a call fails only with the SDK's own error |
| `FrameTheorems.RunsStayCoupled` | vmb-ffi/src/runtime.rs:233-337 | in every run each slot owns its own live box, the SDK holds exactly these boxes, each for its own camera, and the ones past a camera's queue loop position are exactly the announced ones |
| `FrameTheorems.PointersAreLive` | vmb-ffi/src/trampoline.rs:143-147 | every frame pointer the SDK holds, at every step including failed starts and drops during capture, is a live box of a slot of an open camera whose `context[0]` leads back to it |
| `FrameTheorems.RevokeLeavesLivePointersIff` | vmb-ffi/src/runtime.rs:322-337 | a revoke leaves only live pointers at the SDK if and only if no other camera has a slot |
| `FrameTheorems.DispatchesToGiven` | vmb-ffi/src/trampoline.rs:97-102 | a frame that is queued or in flight dispatches to the closure given to its camera's `start_capture`, never to the placeholder |
| `FrameTheorems.NoSwapUnderTheSdk` | vmb-ffi/src/runtime.rs:282-299 | a callback is replaced only while its frame is neither queued nor in flight |
| `FrameTheorems.FramesAreConserved` | vmb-ffi/src/trampoline.rs:131-191 | from the queue loop to `capture_end`, slots queued = frames in the SDK's queue + in a trampoline + retired |
| `FrameTheorems.RetiresIff` | vmb-ffi/src/trampoline.rs:131-191 | a trampoline stage retires a frame if and only if the callback of a completed frame panics or the re-queue is refused |
| `FrameTheorems.CallbacksMatchCompletedFrames` | vmb-ffi/src/trampoline.rs:149-176 | no trampoline ever reads a freed context, only user closures are invoked, and completed firings = invocations + firings still on their way to one |
| `FrameTheorems.NoBoxesLeft` | vmb-ffi/src/runtime.rs:322-337 | once every camera is dropped no box, callback or SDK pointer remains |
| `CaptureWindow.FramesFlyOnlyWhileCapturing` | vmb-core/src/camera.rs:103-143 | a frame inside a trampoline belongs to a camera whose capture is on, and every camera between start and end is capturing |
| `CaptureWindow.SilentUnlessCapturing` | vmb-ffi/src/trampoline.rs:143-147 | at every point of every run, a camera that is not capturing has no frame in a trampoline and none can enter one |
| `CaptureWindow.OnlyCapturingCamerasAreCalled` | vmb-ffi/src/trampoline.rs:149-176 | every step of every run invokes nothing, or once the closure given to a camera that is capturing and holds slots: never that of an idle, stopped or dropped one |
| `CaptureWindow.EndSilences` | vmb-ffi/src/runtime.rs:302-310 | after a `capture_end` the SDK accepts, no step of any continuation invokes that camera's closure before its next successful `capture_start` |
| `TwoCameras.OneHolderIsNotEnough` | vmb-core/src/camera.rs:117-126 | a run in which never more than one camera has slots, ending with a trampoline reading a freed context, while the same run over the fake keeps the slot |
| `Started.FlagIsAUniqueToken` | vmb-ffi/src/runtime.rs:80-105 | over all interleavings the flag is set if and only if exactly one party holds it, every live system's swap reads true, and startups = shutdowns + live systems + drops yet to shut down |
| `Started.FlagAgreesIff` | vmb-ffi/src/state.rs:23-26 | in every interleaving, with nobody in a call, the flag equals "SDK running" unless it is set by a system whose `VmbStartup` was called while a `VmbShutdown` was pending, and only then not |
| `Started.FlagAgreesWithSdk` | vmb-ffi/src/runtime.rs:81-93 | in particular they agree if no swap ever wins against a pending `VmbShutdown` |
| `Started.AlreadyStartedIff` | vmb-ffi/src/runtime.rs:81-86 | a startup is refused if and only if some party holds the flag |
| `Started.FailedStartupIsRetryable` | vmb-core/src/port.rs:26-27 | once a failed startup has rolled back the next one wins, wherever other threads are, and without overlap the process is back at rest |
| `Started.OverlapBreaksAgreement` | vmb-ffi/src/runtime.rs:98-105 | from every state with a pending `VmbShutdown`, letting a swap win can lead to a live system over a stopped SDK with the flag set |
| `Started.OverlapIsReachable` | vmb-ffi/src/runtime.rs:98-105 | a concrete run reaches such a state: start one system and swap it out |
| `DiscoveryContexts.ContextsAreOwned` | vmb-ffi/src/runtime.rs:358-422 | in every interleaving each context is reclaimed at most once, and those not reclaimed are exactly the ones registered or in a call |
| `DiscoveryContexts.ReclaimedExactlyOnce` | vmb-ffi/src/runtime.rs:377-382 | with no call in progress, a context whose registration failed or was dropped was reclaimed exactly once |
| `DiscoveryContexts.CallbacksReadLiveContexts` | vmb-ffi/src/trampoline.rs:206-225 | if unregistering drops its own registration and waits for that registration's callbacks, no running callback ever reads a reclaimed context |
| `DiscoveryContexts.UnregisterIsSafeForCallerIff` | vmb-ffi/src/runtime.rs:403-421 | an unregister leaves the SDK without a reclaimed context whatever the SDK drops, if and only if the SDK holds no other context |
| `DiscoveryContexts.UnregisterIsSafeIff` | vmb-ffi/src/runtime.rs:403-421 | for a given choice of the SDK: if and only if it dropped the matching registration |
| `DiscoveryContexts.OneAtATimeMatches` | vmb-ffi/src/trampoline.rs:206-212 | with at most one context at the SDK whenever one is unregistered, the SDK never holds a reclaimed one |
| `DiscoveryContexts.SecondContextCanDangle` | vmb-ffi/src/runtime.rs:409-415 | wherever a second context is at the SDK, an unregister may lead to a callback that reads a reclaimed context |
| `DiscoveryContexts.SecondContextIsReachable` | vmb-ffi/src/runtime.rs:341-403 | a concrete run with two registrations reaches such a state |
| `DiscoveryCalls.RegisterAgrees` | vmb-ffi/src/runtime.rs:341-392 | the steps of one registration, uninterrupted, have the table, counter and reply of the adapter's specification, accepted or refused |
| `DiscoveryCalls.UnregisterAgrees` | vmb-ffi/src/runtime.rs:394-422 | so do the steps of an unregistration, whatever the SDK drops; an unknown handle changes nothing |
| `FailureInjection.InjectedFailureIff` | vmb-fake/src/lib.rs:158-168 | call number k of a method fails if and only if (method, k) was armed before, with the error armed last |
| `FailureInjection.FailNthHitsFutureCallIff` | vmb-fake/src/lib.rs:198-207 | after any history and whatever comes in between, `fail_nth(m, skip, e)` gives the skip-th future call of m the error e if and only if m was never called before or that very call had been armed with e already |
| `FailureInjection.FailNthOnFreshMethodIff` | vmb-fake/src/lib.rs:198-207 | in particular, with nothing armed for m before, if and only if m was never called |
| `FailureInjection.StaleEntryNeverFires` | vmb-fake/src/lib.rs:158-168 | arming an index below the current count changes the outcome of no later call of any method |
| `FailureInjection.FiresAtMostOnce` | vmb-fake/src/lib.rs:164-166 | the entry a call consults is gone afterwards until armed again, and no later call consults it even then |
| `FailureInjection.CallsConsultDifferentEntries` | vmb-fake/src/lib.rs:158-168 | any two calls of one history consult different entries |
| `FailureInjection.PortCallFailsIff` | vmb-fake/src/lib.rs:158-168 | after any mix of arming and port calls, call number k counted under a method fails if and only if (method, k) was armed, with the error armed last |
| `FailureInjection.OpenCameraIsCounted` | vmb-fake/src/lib.rs:383-389 | `open_camera` consults and counts `OpenCamera` alone |
| `FailureInjection.RunFeatureCommandIsCounted` | vmb-fake/src/lib.rs:403-407 | `run_feature_command` consults and counts `RunFeatureCommand` alone |
| `FailureInjection.PayloadSizeIsCounted` | vmb-fake/src/lib.rs:411-415 | `payload_size` consults and counts `PayloadSize` alone, and otherwise answers the configured size |
| `FailureInjection.AnnounceFrameIsCounted` | vmb-fake/src/lib.rs:417-423 | `announce_frame` consults and counts `AnnounceFrame` alone |
| `FailureInjection.CaptureStartIsCounted` | vmb-fake/src/lib.rs:425-435 | `capture_start` consults and counts `CaptureStart` alone |
| `FailureInjection.QueueFrameIsCounted` | vmb-fake/src/lib.rs:437-448 | `queue_frame` consults and counts `QueueFrame` alone |
| `FailureInjection.RegisterDiscoveryIsCounted` | vmb-fake/src/lib.rs:467-473 | `register_discovery` consults and counts `RegisterDiscovery` alone |
| `FailureInjection.OtherCallsAreNotCounted` | vmb-fake/src/lib.rs:391-508 | the teardown calls and the installs never fail, change no counter and consume no entry |
| `Port.DistinctIdsIff` | vmb-ffi/src/state.rs:93-101 | the first n ids issued are pairwise distinct if and only if n is at most 2^64 |
| `Port.NonZeroIdsIff` | vmb-fake/src/lib.rs:143-150 | none of the first n ids is zero, so `next_id` never panics, if and only if n is below 2^64 |
| `ListCameras.List` | vmb-ffi/src/runtime.rs:109-147 | size query, populate query, conversion: a failed query returns its error, zero cameras take one query, otherwise min(count, found) cameras whose id, model, serial and name each copy the field of that name or read `<unknown>` |
| `ListCameras.HonestListing` | vmb-ffi/src/runtime.rs:121-136 | if the cameras change between the queries, the result describes, field by field, the first min(before, after) of the later ones, and all of them if and only if they did not become more |
| `ListCameras.OvercountedListing` | vmb-ffi/src/runtime.rs:125-146 | entries the SDK counts but did not fill come back unknown in all four fields, the others as it described them |
| `CameraProgram.AdvanceProgresses` | vmb-core/src/camera.rs:88-157 | every port call, whatever it returns, brings the running method strictly closer to its end and keeps loop bounds and the session rule |
| `CameraClient.Camera.Open` | vmb-core/src/camera.rs:45-53 | a camera without session exactly when the adapter returned a handle |
| `CameraClient.Camera.StartCapture` | vmb-core/src/camera.rs:84-128 | on an idle camera the tables end up fully primed or as found, and the session is stored exactly on Ok; on a capturing one no call is made, nothing changes and the answer is `CaptureAlreadyRunning` |
| `CameraClient.Camera.AnnounceAll` | vmb-core/src/camera.rs:99-102 | the announce loop: stops at the first refusal with exactly the slots announced so far |
| `CameraClient.Camera.QueueAll` | vmb-core/src/camera.rs:104-106 | the queue loop: queues in announce order and stops at the first refusal |
| `CameraClient.Camera.StopCapture` | vmb-core/src/camera.rs:132-147 | returns Ok with no session and every table back to what it was before the capture, even if AcquisitionStop fails; logs the five calls in order, or none without a session |
| `CameraClient.Camera.Drop` | vmb-core/src/camera.rs:150-157 | leaves no session; logs the calls of a stop if one was running and then the close |
| `CameraClient.DropIsStopThenClose` | vmb-core/src/camera.rs:151-156 | dropping a capturing camera has the effect of stopping it and then closing it, from any point of the teardown |
| `DiscoveryClient.SubscribeAllOrNothing` | vmb-core/src/discovery.rs:38-53 | one callback and one registration are listed, or nothing |
| `DiscoveryClient.DropUndoesSubscribe` | vmb-core/src/discovery.rs:56-65 | dropping takes back exactly what subscribing listed |
| `DiscoveryClient.SubscribeSettles` | vmb-core/src/discovery.rs:30-54 | a registration is a run of the subscription program of the whole-run theorems: subscribed, or gone after a refusal |
| `DiscoveryClient.UnsubscribeSettles` | vmb-core/src/discovery.rs:56-65 | so is a drop, from its entry until the subscription is gone |
| `DiscoveryClient.DiscoveryRegistration.Register` | vmb-core/src/discovery.rs:30-54 | logs the install and the registration, and on a refusal the uninstall; returns the ids issued or the adapter's error |
| `DiscoveryClient.DiscoveryRegistration.Drop` | vmb-core/src/discovery.rs:56-65 | logs the unregistration first and the uninstall second, of whichever ids it still holds, and holds none afterwards |
| `Started.Globals.Startup` | vmb-ffi/src/runtime.rs:80-96 | an uninterrupted startup: its result, its three steps, the SDK running on Ok, and no change at all if it fails |
| `Started.Globals.Shutdown` | vmb-ffi/src/runtime.rs:98-105 | an uninterrupted shutdown: the SDK is shut down exactly if the flag was set, which is then clear |
| `Started.VmbSystem.Startup` | vmb-core/src/system.rs:37-41 | a system exactly when the runtime started, else the error with nothing changed |
| `Started.VmbSystem.Drop` | vmb-core/src/system.rs:71-75 | the SDK is always shut down, exactly once |
| `FakeRuntime.Runtime.MaybeFail` | vmb-fake/src/lib.rs:158-168 | counts the call, consumes the entry armed for exactly that call and returns its error |
| `FakeRuntime.Runtime.NextId` | vmb-fake/src/lib.rs:143-146 | draws from the wrapping counter and panics exactly on zero |
| `FakeRuntime.Runtime.Startup` | vmb-fake/src/lib.rs:356-368 | an injected failure wins over AlreadyStarted; succeeds exactly if neither applies |
| `FakeRuntime.Runtime.Shutdown` | vmb-fake/src/lib.rs:370-373 | clears the flag whatever it was |
| `FakeRuntime.Runtime.ListCameras` | vmb-fake/src/lib.rs:377-381 | fails by injection under its own method or answers the configured list |
| `FakeRuntime.Runtime.OpenCamera` | vmb-fake/src/lib.rs:383-389 | refines the fake's specification: the id is drawn only after the injected failures were consulted, and a zero id panics before the table is touched |
| `FakeRuntime.Runtime.CloseCamera` | vmb-fake/src/lib.rs:391-395 | refines it: the camera and any capture of it are removed, the slots are not |
| `FakeRuntime.Runtime.RunFeatureCommand` | vmb-fake/src/lib.rs:403-407 | refines it: no table changes |
| `FakeRuntime.Runtime.PayloadSize` | vmb-fake/src/lib.rs:411-415 | fails by injection or answers the configured size; no table changes |
| `FakeRuntime.Runtime.AnnounceFrame` | vmb-fake/src/lib.rs:417-423 | refines it: one new slot, listed under the camera |
| `FakeRuntime.Runtime.CaptureStart` | vmb-fake/src/lib.rs:425-435 | refines it: a capture that is already there keeps its queue |
| `FakeRuntime.Runtime.QueueFrame` | vmb-fake/src/lib.rs:437-448 | counted and failed under its own method; on success appended to the camera's queue, which is created if absent |
| `FakeRuntime.Runtime.CaptureEnd` | vmb-fake/src/lib.rs:450-453 | refines it: the camera's queue is dropped |
| `FakeRuntime.Runtime.FrameRevokeAll` | vmb-fake/src/lib.rs:459-463 | refines it: this camera's slots are removed and no other's |
| `FakeRuntime.Runtime.RegisterDiscovery` | vmb-fake/src/lib.rs:467-473 | refines it: one new registration of the callback |
| `FakeRuntime.Runtime.UnregisterDiscovery` | vmb-fake/src/lib.rs:475-478 | refines it: the registration is removed, its callback is not |
| `FakeRuntime.Runtime.InstallFrameCallback` | vmb-fake/src/lib.rs:482-487 | refines it: logged by the id it returns |
| `FakeRuntime.Runtime.DeliverFrame` | vmb-fake/src/lib.rs:321-350 | delivers to the callback of the first queued slot with the next id as frame id, or reports that there is none |
| `FakeRuntime.Runtime.EmitDiscovery` | vmb-fake/src/lib.rs:304-316 | invokes each installed callback exactly once and nothing else |
| `FfiRuntime.Runtime.OpenCamera` | vmb-ffi/src/runtime.rs:149-171 | refines the FFI adapter's specification: NUL check, then the SDK, then the id, then the table |
| `FfiRuntime.Runtime.CloseCamera` | vmb-ffi/src/runtime.rs:173-187 | refines it: an unknown handle reaches no SDK call |
| `FfiRuntime.Runtime.AnnounceFrame` | vmb-ffi/src/runtime.rs:233-261 | refines it: a box with a placeholder callback whose frame points back at it is kept, or none if the SDK refuses |
| `FfiRuntime.Runtime.QueueFrame` | vmb-ffi/src/runtime.rs:269-300 | refines it: both unknown-id errors, and the callback is swapped before the SDK can refuse |
| `FfiRuntime.Runtime.FrameRevokeAll` | vmb-ffi/src/runtime.rs:322-337 | refines it: every box of the adapter is freed and no other memory |
| `FfiRuntime.Runtime.CaptureEnd` | vmb-ffi/src/runtime.rs:302-310 | refines it: the SDK's error is swallowed |
| `FfiRuntime.Runtime.RegisterDiscovery` | vmb-ffi/src/runtime.rs:341-392 | refines it, and the contexts not reclaimed stay exactly those of the registrations, one each |
| `FfiRuntime.Runtime.UnregisterDiscovery` | vmb-ffi/src/runtime.rs:394-422 | refines it, and the contexts not reclaimed stay exactly those of the registrations, one each |
| `FfiRuntime.TrampolineContext.VmbFrameMutPtr` | vmb-ffi/src/trampoline.rs:92-95 | the frame pointer is the context's own address and `context[0]` is patched to it |
| `FfiRuntime.Runtime.DispatchFrame` | vmb-ffi/src/trampoline.rs:131-176 | the trampoline up to the callback's return: a callback is invoked exactly for a complete frame with a context |
| `FfiRuntime.Runtime.HandFrameBack` | vmb-ffi/src/trampoline.rs:178-190 | the rest of the trampoline, callable with anything in between |
| `FfiRuntime.Runtime.FrameCallbackTrampoline` | vmb-ffi/src/trampoline.rs:125-192 | both stages in sequence, with nothing in between |

## Left out

- `vmb-sys`, symbol resolution, library search and `vmb::real`: generated bindings and loader I/O without protocol state.
- `error_name`, `check`, `PixelFormat::from_raw`, accessors and `Debug`: one-branch tables.
- Pixel bytes, timestamps, string conversion and error messages: opaque values. SDK codes are numbers, closures are tokens.
- What a closure does: a closure that calls back into the port from inside a callback is not modelled.
- `discovery_trampoline`'s reading of event features: only the lifetime of its context is modelled.
- The frame trampoline's null check on the frame pointer itself: the SDK hands out only pointers it was given.
- `list_cameras` and `load_settings` in whole runs: they touch no table. `load_settings` is modelled on the fake only.
- `pre_open_camera`, direct calls through `VmbSystem::runtime()`, and cameras that outlive their system: they bypass the ownership the whole-run theorems rest on.
- `handle_for`, `calls`, `call_count` and `is_started`: they only read a field.
- `Camera` and `DiscoveryRegistration` are generic over the runtime; as classes they are written over the fake. Over the FFI adapter the same camera program runs in `FfiWorld`.
- Mutex poisoning, memory ordering and `Send`/`Sync`: each lock region and each atomic operation is one step.
- The fake's per-method call counters are unbounded; in the source they are 64-bit and would overflow.
- FfiRuntime.Runtime.FrameCallbackTrampoline: runs both stages without interruption, because a method cannot be interleaved; `DispatchFrame` and `HandFrameBack` are the stages one at a time, and `FfiWorld` interleaves them.
