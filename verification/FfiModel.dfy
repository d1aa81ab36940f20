/** The FFI adapter on values, with the part of the SDK it talks to.

    `heap` holds the live `TrampolineContext` boxes by address and `frames`
    the box each slot owns; the SDK side keeps the raw frame pointers it was
    given. The SDK is assumed to do what the adapter's comments rely on:
    `VmbFrameRevokeAll` succeeds and drops every pointer of the camera, and it
    and a successful `VmbCaptureEnd` return only once no callback of that
    camera is running. Everything else the SDK may refuse. */
module FfiModel {
  import opened Port

  /** The closure a context dispatches to: a no-op until the frame is queued. */
  datatype FrameCallback = Placeholder | User(closure: Closure)

  /** A `TrampolineContext`; `context0` is the pointer its frame carries back. */
  datatype Context = Context(callback: FrameCallback, context0: Option<Addr>)

  /** Why a frame stops circulating. */
  datatype Loss = CallbackPanicked | RequeueRefused | NullContext

  /** Where a frame the SDK knows of is: announced only, in its queue, inside
      the trampoline before or after the callback, or out of circulation. */
  datatype Status =
    | Announced
    | Queued
    | Entered(complete: bool)
    | Returning
    | Retired(why: Loss)

  datatype SdkFrame = SdkFrame(camera: Addr, status: Status)

  datatype SdkState = SdkState(capturing: set<Addr>, frames: map<Addr, SdkFrame>)

  datatype Invocation = Invocation(frame: Addr, callback: FrameCallback)

  /** What the trampolines did so far: completed frames that entered one,
      callbacks invoked, and reads of a context that was no longer live. */
  datatype History = History(completed: nat, invoked: seq<Invocation>, faults: nat)

  datatype FfiState = FfiState(
    cameras: map<Id, Addr>,
    frames: map<Id, Addr>,
    heap: map<Addr, Context>,
    frameCallbacks: map<Id, Closure>,
    discoveryCallbacks: map<Id, Closure>,
    discoveryRegs: map<Id, Addr>,
    draws: nat,
    sdk: SdkState,
    history: History)

  const NO_FFI := FfiState(map[], map[], map[], map[], map[], map[], 0, SdkState({}, map[]), History(0, [], 0))

  // --- The SDK's side of a call -----------------------------------------

  function AfterFlush(frames: map<Addr, SdkFrame>, raw: Addr): map<Addr, SdkFrame> {
    map p | p in frames ::
      if frames[p].camera == raw && frames[p].status.Queued? then frames[p].(status := Announced) else frames[p]
  }

  function AfterRevoke(frames: map<Addr, SdkFrame>, raw: Addr): map<Addr, SdkFrame> {
    map p | p in frames && frames[p].camera != raw :: frames[p]
  }

  predicate InFlight(s: Status) {
    s.Entered? || s.Returning?
  }

  predicate CallbackRunning(s: SdkState, raw: Addr) {
    exists p :: p in s.frames && s.frames[p].camera == raw && InFlight(s.frames[p].status)
  }

  // --- The port ---------------------------------------------------------

  /** The camera a call must resolve before it reaches the SDK. */
  function Target(c: Call): Option<Id> {
    match c
    case RunFeatureCommand(h, _) => Some(h)
    case PayloadSize(h) => Some(h)
    case AnnounceFrame(h, _) => Some(h)
    case CaptureStart(h) => Some(h)
    case QueueFrame(h, _, _) => Some(h)
    case CaptureEnd(h) => Some(h)
    case CaptureQueueFlush(h) => Some(h)
    case FrameRevokeAll(h) => Some(h)
    case _ => None
  }

  predicate Infallible(c: Call) {
    c.CaptureEnd? || c.CaptureQueueFlush? || c.FrameRevokeAll?
  }

  function Serve(f: FfiState, c: Call, a: Answer): (FfiState, Reply) {
    if Target(c).Some? && Target(c).value !in f.cameras then
      (f, if Infallible(c) then Done else Failed(InvalidString(CameraHandle)))
    else if Target(c).Some? then ServeCapture(f, c, f.cameras[Target(c).value], a)
    else ServeOther(f, c, a)
  }

  /** The calls made on a resolved camera. */
  function ServeCapture(f: FfiState, c: Call, raw: Addr, a: Answer): (FfiState, Reply)
    requires Target(c).Some?
  {
    match c
    case RunFeatureCommand(_, _) =>
      if a.fail.Some? then (f, Failed(a.fail.value)) else (f, Done)
    case PayloadSize(_) =>
      if a.fail.Some? then (f, Failed(a.fail.value)) else (f, Size(a.payload))
    case AnnounceFrame(_, _) =>
      if a.fail.Some? then (f, Failed(a.fail.value))
      else
        (f.(draws := f.draws + 1,
            frames := f.frames[IdAfter(f.draws) := a.addr],
            heap := f.heap[a.addr := Context(Placeholder, Some(a.addr))],
            sdk := f.sdk.(frames := f.sdk.frames[a.addr := SdkFrame(raw, Announced)])),
         Got(IdAfter(f.draws)))
    case CaptureStart(_) =>
      if a.fail.Some? then (f, Failed(a.fail.value))
      else (f.(sdk := f.sdk.(capturing := f.sdk.capturing + {raw})), Done)
    case QueueFrame(_, slot, cb) => ServeQueue(f, slot, cb, raw, a)
    case CaptureEnd(_) =>
      if a.fail.Some? then (f, Done)
      else (f.(sdk := f.sdk.(capturing := f.sdk.capturing - {raw})), Done)
    case CaptureQueueFlush(_) =>
      if a.fail.Some? then (f, Done)
      else (f.(sdk := f.sdk.(frames := AfterFlush(f.sdk.frames, raw))), Done)
    case FrameRevokeAll(_) =>
      (f.(sdk := f.sdk.(frames := AfterRevoke(f.sdk.frames, raw)),
          heap := f.heap - f.frames.Values,
          frames := map[]), Done)
  }

  /** The callback is swapped in before the SDK is asked to queue the frame. */
  function ServeQueue(f: FfiState, slot: Id, cb: Id, raw: Addr, a: Answer): (FfiState, Reply) {
    if cb !in f.frameCallbacks then (f, Failed(InvalidString(FrameCallbackId)))
    else if slot !in f.frames then (f, Failed(InvalidString(FrameSlotId)))
    else
      var p := f.frames[slot];
      var swapped := f.(heap := f.heap[p := Context(User(f.frameCallbacks[cb]), Some(p))]);
      if a.fail.Some? then (swapped, Failed(a.fail.value))
      else (swapped.(sdk := f.sdk.(frames := f.sdk.frames[p := SdkFrame(raw, Queued)])), Done)
  }

  function ServeOther(f: FfiState, c: Call, a: Answer): (FfiState, Reply)
    requires Target(c).None?
  {
    var id := IdAfter(f.draws);
    var drawn := f.(draws := f.draws + 1);
    match c
    case OpenCamera(name) =>
      if '\0' in name then (f, Failed(InvalidString(CameraName)))
      else if a.fail.Some? then (f, Failed(a.fail.value))
      else if id == 0 then (drawn, Panicked)
      else (drawn.(cameras := f.cameras[id := a.raw]), Got(id))
    case CloseCamera(h) =>
      if h in f.cameras then
        (f.(cameras := f.cameras - {h}, sdk := f.sdk.(capturing := f.sdk.capturing - {f.cameras[h]})), Done)
      else (f, Done)
    case RegisterDiscovery(cb) =>
      if cb !in f.discoveryCallbacks then (f, Failed(InvalidString(DiscoveryCallbackId)))
      else if a.fail.Some? then (f, Failed(a.fail.value))
      else (drawn.(discoveryRegs := f.discoveryRegs[id := a.addr]), Got(id))
    case UnregisterDiscovery(r) => (f.(discoveryRegs := f.discoveryRegs - {r}), Done)
    case InstallFrameCallback(g) =>
      (drawn.(frameCallbacks := f.frameCallbacks[id := g]), Got(id))
    case UninstallFrameCallback(cb) => (f.(frameCallbacks := f.frameCallbacks - {cb}), Done)
    case InstallDiscoveryCallback(g) =>
      (drawn.(discoveryCallbacks := f.discoveryCallbacks[id := g]), Got(id))
    case UninstallDiscoveryCallback(cb) => (f.(discoveryCallbacks := f.discoveryCallbacks - {cb}), Done)
  }

  /** A frame announced in state `f`. */
  function WithBox(f: FfiState, slot: Id, p: Addr, raw: Addr): FfiState {
    f.(draws := f.draws + 1,
       frames := f.frames[slot := p],
       heap := f.heap[p := Context(Placeholder, Some(p))],
       sdk := f.sdk.(frames := f.sdk.frames[p := SdkFrame(raw, Announced)]))
  }

  lemma AnnounceServed(f: FfiState, h: Id, size: nat, a: Answer)
    ensures Serve(f, AnnounceFrame(h, size), a)
         == if h !in f.cameras then (f, Failed(InvalidString(CameraHandle)))
            else if a.fail.Some? then (f, Failed(a.fail.value))
            else (WithBox(f, IdAfter(f.draws), a.addr, f.cameras[h]), Got(IdAfter(f.draws)))
  {
  }

  /** A discovery context registered in state `f`. */
  function WithRegistration(f: FfiState, r: Id, p: Addr): FfiState {
    f.(draws := f.draws + 1, discoveryRegs := f.discoveryRegs[r := p])
  }

  lemma RegisterServed(f: FfiState, cb: Id, a: Answer)
    ensures Serve(f, RegisterDiscovery(cb), a)
         == if cb !in f.discoveryCallbacks then (f, Failed(InvalidString(DiscoveryCallbackId)))
            else if a.fail.Some? then (f, Failed(a.fail.value))
            else (WithRegistration(f, IdAfter(f.draws), a.addr), Got(IdAfter(f.draws)))
  {
  }

  // --- The frame trampoline ---------------------------------------------

  function SetStatus(f: FfiState, p: Addr, s: Status): FfiState
    requires p in f.sdk.frames
  {
    f.(sdk := f.sdk.(frames := f.sdk.frames[p := f.sdk.frames[p].(status := s)]))
  }

  predicate Fires(f: FfiState, p: Addr) {
    p in f.sdk.frames && f.sdk.frames[p].status.Queued? && f.sdk.frames[p].camera in f.sdk.capturing
  }

  predicate Dispatches(f: FfiState, p: Addr) {
    p in f.sdk.frames && f.sdk.frames[p].status.Entered?
  }

  predicate HandsBack(f: FfiState, p: Addr) {
    p in f.sdk.frames && f.sdk.frames[p].status.Returning?
  }

  /** The SDK takes a queued frame of a capturing camera and calls the
      trampoline with it. */
  function EnterTrampoline(f: FfiState, p: Addr, complete: bool): FfiState {
    if !Fires(f, p) then f
    else
      SetStatus(f, p, Entered(complete)).(
        history := f.history.(completed := f.history.completed + if complete then 1 else 0))
  }

  /** The context the trampoline reaches through `frame.context[0]`, if both
      the frame and the context behind it are live. */
  predicate Reaches(f: FfiState, p: Addr) {
    p in f.heap && (f.heap[p].context0.Some? ==> f.heap[p].context0.value in f.heap)
  }

  function Fault(f: FfiState): FfiState {
    f.(history := f.history.(faults := f.history.faults + 1))
  }

  /** The callback a frame in the trampoline is dispatched to, if any: an
      incomplete frame and one without a context are not. */
  function Callee(f: FfiState, p: Addr): Option<FrameCallback>
    requires Dispatches(f, p) && Reaches(f, p)
  {
    if f.heap[p].context0.Some? && f.sdk.frames[p].status.complete
    then Some(f.heap[f.heap[p].context0.value].callback) else None
  }

  /** Where the frame is afterwards; a panic is caught around the re-queue as
      well, so it skips that. */
  function StatusAfter(f: FfiState, p: Addr, panics: bool): Status
    requires Dispatches(f, p) && Reaches(f, p)
  {
    if f.heap[p].context0.None? then Retired(NullContext)
    else if panics && f.sdk.frames[p].status.complete then Retired(CallbackPanicked)
    else Returning
  }

  function Logged(history: History, p: Addr, callee: Option<FrameCallback>): History {
    history.(invoked := history.invoked + if callee.Some? then [Invocation(p, callee.value)] else [])
  }

  /** The trampoline reads the context and, for a completed frame, invokes its
      callback. */
  function RunCallback(f: FfiState, p: Addr, panics: bool): FfiState {
    if !Dispatches(f, p) then f
    else if !Reaches(f, p) then Fault(f)
    else SetStatus(f, p, StatusAfter(f, p, panics)).(history := Logged(f.history, p, Callee(f, p)))
  }

  /** The trampoline hands the frame back through the context's api handle. */
  function HandBack(f: FfiState, p: Addr, accepted: bool): FfiState {
    if !HandsBack(f, p) then f
    else if !Reaches(f, p) then Fault(f)
    else SetStatus(f, p, if accepted then Queued else Retired(RequeueRefused))
  }

  // --- What a trampoline stage can touch --------------------------------

  /** Only the SDK's frames and the history may differ. */
  predicate SameButFrames(f: FfiState, g: FfiState) {
    g == f.(sdk := f.sdk.(frames := g.sdk.frames), history := g.history)
  }

  lemma FireTouches(f: FfiState, p: Addr, complete: bool)
    ensures SameButFrames(f, EnterTrampoline(f, p, complete))
  {
  }

  lemma DispatchTouches(f: FfiState, p: Addr, panics: bool)
    ensures SameButFrames(f, RunCallback(f, p, panics))
  {
  }

  lemma HandBackTouches(f: FfiState, p: Addr, accepted: bool)
    ensures SameButFrames(f, HandBack(f, p, accepted))
  {
  }

  /** The frames a stage leaves: one status changed, or none. */
  function Marked(frames: map<Addr, SdkFrame>, p: Addr, s: Option<Status>): map<Addr, SdkFrame> {
    if s.Some? && p in frames then frames[p := frames[p].(status := s.value)] else frames
  }

  lemma DispatchMarks(f: FfiState, p: Addr, panics: bool)
    ensures RunCallback(f, p, panics).sdk.frames
         == Marked(f.sdk.frames, p,
                   if Dispatches(f, p) && Reaches(f, p) then Some(StatusAfter(f, p, panics)) else None)
  {
  }

  lemma HandBackMarks(f: FfiState, p: Addr, accepted: bool)
    ensures HandBack(f, p, accepted).sdk.frames
         == Marked(f.sdk.frames, p,
                   if !HandsBack(f, p) || !Reaches(f, p) then None
                   else Some(if accepted then Queued else Retired(RequeueRefused)))
  {
  }

  /** What a dispatch adds to the invocations. */
  lemma DispatchLogs(f: FfiState, p: Addr, panics: bool)
    ensures RunCallback(f, p, panics).history.invoked
         == f.history.invoked
            + if Dispatches(f, p) && Reaches(f, p) && Callee(f, p).Some?
              then [Invocation(p, Callee(f, p).value)] else []
  {
  }
}
