/** When frames of a camera can be inside a trampoline: only from a successful
    `capture_start` to the next successful `capture_end`. */
module CaptureWindow {
  import opened Port
  import opened CameraProgram
  import Fake = FakeModel
  import opened Domain
  import opened TableInvariant
  import opened FfiModel
  import opened FfiWorld
  import opened FrameLiveness
  import opened FrameTheorems
  import Simulation

  /** A frame in a trampoline belongs to a capturing camera. */
  predicate Grounded(sdk: SdkState) {
    forall p <- sdk.frames :: InFlight(sdk.frames[p].status) ==> sdk.frames[p].camera in sdk.capturing
  }

  /** A camera past `capture_start` and not past `capture_end` is capturing. */
  predicate LiveCapturing(cameras: map<Id, Addr>, capturing: set<Addr>, cams: map<Id, CameraState>) {
    forall h <- cams :: LiveOf(cams[h]).Some? && h in cameras ==> cameras[h] in capturing
  }

  predicate WindowOk(w: World) {
    Grounded(w.f.sdk) && LiveCapturing(w.f.cameras, w.f.sdk.capturing, w.d.cams)
  }

  // --- Port calls -------------------------------------------------------

  /** No frame was put in flight. */
  predicate Calms(frames: map<Addr, SdkFrame>, frames': map<Addr, SdkFrame>) {
    forall p <- frames' :: InFlight(frames'[p].status) ==> p in frames && frames'[p] == frames[p]
  }

  lemma QueueCalms(f: FfiState, slot: Id, cb: Id, raw: Addr, a: Answer)
    ensures var g := ServeQueue(f, slot, cb, raw, a).0;
      Calms(f.sdk.frames, g.sdk.frames) && g.cameras == f.cameras
  {
  }

  lemma CallsCalm(f: FfiState, c: Call, a: Answer)
    ensures Calms(f.sdk.frames, Serve(f, c, a).0.sdk.frames)
  {
    match c
    case AnnounceFrame(h, size) => AnnounceServed(f, h, size, a);
    case QueueFrame(h, slot, cb) =>
      if h in f.cameras {
        QueueCalms(f, slot, cb, f.cameras[h], a);
      }
    case CaptureQueueFlush(h) => if h in f.cameras { FlushServed(f, h, a); }
    case FrameRevokeAll(h) =>
    case _ => QuietCallKeepsFrames(f, c, a);
  }

  /** The cameras capturing after a call. */
  function CapturingAfter(f: FfiState, c: Call, a: Answer): set<Addr> {
    match c
    case CaptureStart(h) =>
      if h in f.cameras && a.fail.None? then f.sdk.capturing + {f.cameras[h]} else f.sdk.capturing
    case CaptureEnd(h) =>
      if h in f.cameras && a.fail.None? then f.sdk.capturing - {f.cameras[h]} else f.sdk.capturing
    case CloseCamera(h) =>
      if h in f.cameras then f.sdk.capturing - {f.cameras[h]} else f.sdk.capturing
    case _ => f.sdk.capturing
  }

  lemma CaptureCallsCapture(f: FfiState, c: Call, raw: Addr, a: Answer)
    requires Target(c).Some? && Target(c).value in f.cameras && raw == f.cameras[Target(c).value]
    ensures ServeCapture(f, c, raw, a).0.sdk.capturing == CapturingAfter(f, c, a)
  {
  }

  lemma CallsCapture(f: FfiState, c: Call, a: Answer)
    ensures Serve(f, c, a).0.sdk.capturing == CapturingAfter(f, c, a)
  {
    if Target(c).Some? && Target(c).value in f.cameras {
      CaptureCallsCapture(f, c, f.cameras[Target(c).value], a);
    }
  }

  /** A closing camera has no frame at the SDK. */
  lemma ClosingHasNoFrames(t: Fake.Tables, w: World, h: Id)
    requires Coupled(t, w) && h in w.d.cams && h in w.f.cameras && SlotsOf(w.d.cams[h]) == []
    ensures forall p <- w.f.sdk.frames :: w.f.sdk.frames[p].camera != w.f.cameras[h]
  {
    forall p <- w.f.sdk.frames
      ensures w.f.sdk.frames[p].camera != w.f.cameras[h]
    {
      if w.f.sdk.frames[p].camera == w.f.cameras[h] {
        var i := OwnFrame(t, w, h, p);
      }
    }
  }

  lemma EndedIsGrounded(sdk: SdkState, raw: Addr)
    requires Grounded(sdk) && !CallbackRunning(sdk, raw)
    ensures Grounded(sdk.(capturing := sdk.capturing - {raw}))
  {
  }

  lemma CalmStaysGrounded(sdk: SdkState, sdk': SdkState)
    requires Grounded(sdk.(capturing := sdk'.capturing)) && Calms(sdk.frames, sdk'.frames)
    ensures Grounded(sdk')
  {
  }

  /** Who can make a call that stops a capture. */
  lemma OnlyCamerasStop(d: State, who: Actor)
    requires CanCall(d, who) && !who.Cam?
    ensures !CallOf(d, who).CaptureEnd? && !CallOf(d, who).CloseCamera?
  {
  }

  lemma CloseStaysGrounded(t: Fake.Tables, w: World, h: Id)
    requires Coupled(t, w) && Grounded(w.f.sdk) && CanCall(w.d, Cam(h)) && Next(w.d.cams[h]).CloseCamera?
    requires h in w.f.cameras
    ensures Grounded(w.f.sdk.(capturing := w.f.sdk.capturing - {w.f.cameras[h]}))
  {
    ClosingCall(w.d.cams[h]);
    ClosingHasNoFrames(t, w, h);
    EndedIsGrounded(w.f.sdk, w.f.cameras[h]);
  }

  lemma StoppingStaysGrounded(t: Fake.Tables, w: World, h: Id, a: Answer)
    requires Coupled(t, w) && Grounded(w.f.sdk) && CanCall(w.d, Cam(h))
    requires Next(w.d.cams[h]).CaptureEnd? || Next(w.d.cams[h]).CloseCamera?
    requires Allowed(w.f, Next(w.d.cams[h]), a)
    ensures Grounded(w.f.sdk.(capturing := CapturingAfter(w.f, Next(w.d.cams[h]), a)))
  {
    HoldingsIssued(t, w.d, h);
    NextIsOwn(w.d.cams[h]);
    if h in w.f.cameras {
      if Next(w.d.cams[h]).CloseCamera? {
        CloseStaysGrounded(t, w, h);
      } else if a.fail.None? {
        EndedIsGrounded(w.f.sdk, w.f.cameras[h]);
      }
    }
  }

  lemma OthersStayGrounded(f: FfiState, c: Call, a: Answer)
    requires Grounded(f.sdk) && !c.CaptureEnd? && !c.CloseCamera?
    ensures Grounded(f.sdk.(capturing := CapturingAfter(f, c, a)))
  {
  }

  lemma CallStaysGrounded(t: Fake.Tables, w: World, who: Actor, a: Answer)
    requires Coupled(t, w) && Grounded(w.f.sdk) && CanCall(w.d, who)
    requires Allowed(w.f, CallOf(w.d, who), a)
    ensures Grounded(Serve(w.f, CallOf(w.d, who), a).0.sdk)
  {
    var c := CallOf(w.d, who);
    CallsCalm(w.f, c, a);
    CallsCapture(w.f, c, a);
    if c.CaptureEnd? || c.CloseCamera? {
      assert who.Cam? by { if !who.Cam? { OnlyCamerasStop(w.d, who); } }
      StoppingStaysGrounded(t, w, who.h, a);
    } else {
      OthersStayGrounded(w.f, c, a);
    }
    CalmStaysGrounded(w.f.sdk, Serve(w.f, c, a).0.sdk);
  }

  lemma ClosingCall(c: CameraState)
    requires Busy(c) && Shaped(c) && Next(c).CloseCamera?
    ensures SlotsOf(c) == [] && Next(c) == CloseCamera(c.handle)
  {
  }

  lemma LiveAdvances(c: CameraState, r: Reply)
    requires Busy(c) && Shaped(c) && LiveOf(Advance(c, r)).Some?
    ensures (LiveOf(c).Some? && !Next(c).CaptureEnd? && !Next(c).CloseCamera? && !Next(c).CaptureStart?)
         || (Next(c) == CaptureStart(c.handle) && r.Done?)
  {
  }

  lemma StartServed(f: FfiState, h: Id, a: Answer)
    requires h in f.cameras && Serve(f, CaptureStart(h), a).1.Done?
    ensures a.fail.None?
  {
  }

  lemma CameraStaysCapturing(cameras: map<Id, Addr>, f: FfiState, cams: map<Id, CameraState>, h: Id, a: Answer)
    requires LiveCapturing(f.cameras, f.sdk.capturing, cams) && RawsOk(f.cameras)
    requires h in cams && Busy(cams[h]) && Shaped(cams[h])
    requires forall k <- cams :: cams[k].handle == k && k in f.cameras
    requires cameras == (if Next(cams[h]).CloseCamera? then f.cameras - {h} else f.cameras)
    ensures LiveCapturing(cameras, CapturingAfter(f, Next(cams[h]), a),
                          Put(cams, h, Advance(cams[h], Serve(f, Next(cams[h]), a).1)))
  {
    var c := cams[h];
    var r := Serve(f, Next(c), a).1;
    NextIsOwn(c);
    if LiveOf(Advance(c, r)).Some? {
      LiveAdvances(c, r);
      if Next(c).CaptureStart? {
        StartServed(f, h, a);
      }
    }
  }

  /** The calls that change who captures concern the caller's own handle. */
  lemma NextIsOwn(c: CameraState)
    requires Busy(c) && Shaped(c)
    ensures Next(c).CaptureStart? || Next(c).CaptureEnd? || Next(c).CloseCamera? ==> Next(c).h == c.handle
  {
  }

  lemma CallKeepsCameras(f: FfiState, c: Call, a: Answer)
    ensures !c.OpenCamera? && !c.CloseCamera? ==> Serve(f, c, a).0.cameras == f.cameras
    ensures c.CloseCamera? ==> Serve(f, c, a).0.cameras == f.cameras - {c.h}
  {
    match c
    case AnnounceFrame(h, size) => AnnounceServed(f, h, size, a);
    case QueueFrame(h, slot, cb) =>
      if h in f.cameras {
        QueueCalms(f, slot, cb, f.cameras[h], a);
      }
    case CaptureQueueFlush(h) => if h in f.cameras { FlushServed(f, h, a); }
    case FrameRevokeAll(h) =>
    case CloseCamera(h) =>
    case _ => QuietCallKeepsFrames(f, c, a);
  }

  lemma CameraCallKeepsWindow(t: Fake.Tables, w: World, h: Id, a: Answer)
    requires Coupled(t, w) && WindowOk(w) && CanCall(w.d, Cam(h))
    ensures var w' := Take(w, Domain(Invoke(Cam(h), a)));
      LiveCapturing(w'.f.cameras, w'.f.sdk.capturing, w'.d.cams)
  {
    var c := w.d.cams[h];
    HoldingsIssued(t, w.d, h);
    CallsCapture(w.f, Next(c), a);
    CallKeepsCameras(w.f, Next(c), a);
    NextIsOwn(c);
    CamerasOpenThroughout(t, w, c);
    CameraStaysCapturing(Serve(w.f, Next(c), a).0.cameras, w.f, w.d.cams, h, a);
  }

  lemma CamerasOpenThroughout(t: Fake.Tables, w: World, c: CameraState)
    requires Coupled(t, w) && Busy(c) && Shaped(c)
    ensures forall k <- w.d.cams :: w.d.cams[k].handle == k && k in w.f.cameras
    ensures !Next(c).OpenCamera?
  {
    forall k <- w.d.cams
      ensures w.d.cams[k].handle == k && k in w.f.cameras
    {
      HoldingsIssued(t, w.d, k);
    }
  }

  lemma OpenServed(f: FfiState, name: string, a: Answer)
    requires Serve(f, OpenCamera(name), a).0.draws < U64
    ensures var (f', r) := Serve(f, OpenCamera(name), a);
      if r.Got? then r.id == f.draws + 1 && f'.cameras == f.cameras[r.id := a.raw] else f'.cameras == f.cameras
  {
    if '\0' !in name && a.fail.None? {
      UnwrappedId(f.draws);
    }
  }

  lemma OpenedKeepsLive(cameras: map<Id, Addr>, capturing: set<Addr>, cams: map<Id, CameraState>, id: Id, raw: Addr)
    requires LiveCapturing(cameras, capturing, cams) && id !in cams
    ensures LiveCapturing(cameras[id := raw], capturing, cams[id := Opened(id)])
  {
  }

  lemma OpenKeepsWindow(t: Fake.Tables, w: World, name: string, a: Answer)
    requires Coupled(t, w) && LiveCapturing(w.f.cameras, w.f.sdk.capturing, w.d.cams)
    requires Serve(w.f, OpenCamera(name), a).0.draws < U64
    ensures var (f', r) := Serve(w.f, OpenCamera(name), a);
      LiveCapturing(f'.cameras, f'.sdk.capturing, Receive(w.d, Opener(name), r).cams)
  {
    CallsCapture(w.f, OpenCamera(name), a);
    OpenServed(w.f, name, a);
    forall k <- w.d.cams
      ensures k <= w.f.draws
    {
      HoldingsIssued(t, w.d, k);
    }
    OpenedKeepsLive(w.f.cameras, w.f.sdk.capturing, w.d.cams, w.f.draws + 1, a.raw);
  }

  lemma SubscriberKeepsWindow(w: World, who: Actor, a: Answer)
    requires WindowOk(w) && CanCall(w.d, who) && (who.Registrar? || who.Sub?)
    ensures var w' := Take(w, Domain(Invoke(who, a)));
      LiveCapturing(w'.f.cameras, w'.f.sdk.capturing, w'.d.cams)
  {
    CallsCapture(w.f, CallOf(w.d, who), a);
    CallKeepsCameras(w.f, CallOf(w.d, who), a);
  }

  // --- Trampolines and method entries -----------------------------------

  lemma FireKeepsWindow(f: FfiState, p: Addr, complete: bool)
    requires Grounded(f.sdk)
    ensures var g := EnterTrampoline(f, p, complete);
      Grounded(g.sdk) && g.sdk.capturing == f.sdk.capturing && g.cameras == f.cameras
  {
    FireTouches(f, p, complete);
  }

  lemma DispatchKeepsWindow(f: FfiState, p: Addr, panics: bool)
    requires Grounded(f.sdk)
    ensures var g := RunCallback(f, p, panics);
      Grounded(g.sdk) && g.sdk.capturing == f.sdk.capturing && g.cameras == f.cameras
  {
    DispatchTouches(f, p, panics);
  }

  lemma HandBackKeepsWindow(f: FfiState, p: Addr, accepted: bool)
    requires Grounded(f.sdk)
    ensures var g := HandBack(f, p, accepted);
      Grounded(g.sdk) && g.sdk.capturing == f.sdk.capturing && g.cameras == f.cameras
  {
    HandBackTouches(f, p, accepted);
  }

  lemma EnteringKeepsLive(c: CameraState, buffers: nat, closure: Closure)
    requires c.pc.Ready?
    ensures LiveOf(BeginStart(c, buffers, closure)) == LiveOf(BeginStop(c)) == LiveOf(BeginDrop(c)) == LiveOf(c)
  {
  }

  lemma EnterKeepsWindow(w: World, e: Event)
    requires WindowOk(w)
    ensures WindowOk(w.(d := Enter(w.d, e)))
  {
    if !e.Invoke? && !e.Unsubscribe? && e.h in w.d.cams && w.d.cams[e.h].pc.Ready? {
      EnteringKeepsLive(w.d.cams[e.h], if e.Start? then e.buffers else 0, if e.Start? then e.closure else 0);
    }
  }

  lemma StepKeepsWindow(t: Fake.Tables, w: World, x: Step)
    requires Coupled(t, w) && WindowOk(w) && Take(w, x).f.draws < U64 && Admissible(w, x)
    ensures WindowOk(Take(w, x))
  {
    match x
    case Domain(Invoke(who, a)) =>
      if CanCall(w.d, who) {
        CallStaysGrounded(t, w, who, a);
        match who {
          case Cam(h) => CameraCallKeepsWindow(t, w, h, a);
          case Opener(name) => OpenKeepsWindow(t, w, name, a);
          case _ => SubscriberKeepsWindow(w, who, a);
        }
      }
    case Domain(e) => EnterKeepsWindow(w, e);
    case Fire(p, complete) => FireKeepsWindow(w.f, p, complete);
    case Dispatch(p, panics) => DispatchKeepsWindow(w.f, p, panics);
    case Requeue(p, accepted) => HandBackKeepsWindow(w.f, p, accepted);
  }

  /** In every run a frame inside a trampoline belongs to a camera whose
      capture the SDK has started and not ended, and every camera between its
      `capture_start` and its `capture_end` is capturing. */
  lemma {:induction false} FramesFlyOnlyWhileCapturing(xs: seq<Step>)
    requires Proper(xs)
    ensures WindowOk(Run(xs))
  {
    if xs != [] {
      var front := xs[..|xs| - 1];
      ProperPrefix(xs);
      RunsStayCoupled(front);
      FramesFlyOnlyWhileCapturing(front);
      StepKeepsWindow(FakeTables(front), Run(front), xs[|xs| - 1]);
    }
  }

  /** No frame of the SDK camera `raw` is in a trampoline or can enter one. */
  predicate Silent(f: FfiState, raw: Addr) {
    forall p <- f.sdk.frames, complete: bool :: f.sdk.frames[p].camera == raw ==>
      !InFlight(f.sdk.frames[p].status) && EnterTrampoline(f, p, complete) == f
  }

  /** At every point of every run, a camera that is not capturing is silent. */
  lemma SilentUnlessCapturing(w: World, raw: Addr)
    requires Reachable(w) && raw !in w.f.sdk.capturing
    ensures Silent(w.f, raw)
  {
    var xs :| Proper(xs) && Run(xs) == w;
    FramesFlyOnlyWhileCapturing(xs);
  }

  // --- Whose closures are invoked ---------------------------------------

  /** The step invokes the closure given to the latest `start_capture` of `h`,
      a camera that holds slots and is capturing, on one of its own frames. */
  predicate InvokesFor(w: World, x: Step, h: Id, p: Addr) {
    && h in w.d.cams && h in w.f.cameras && SlotsOf(w.d.cams[h]) != [] && w.f.cameras[h] in w.f.sdk.capturing
    && p in w.f.sdk.frames && w.f.sdk.frames[p].camera == w.f.cameras[h]
    && Take(w, x).f.history.invoked == w.f.history.invoked + [Invocation(p, User(w.d.cams[h].given))]
  }

  predicate InvokesNobody(w: World, x: Step) {
    Take(w, x).f.history.invoked == w.f.history.invoked
  }

  /** What a step can invoke: nothing, or a capturing camera's closure, once. */
  predicate InvokesCapturingOnly(w: World, x: Step) {
    InvokesNobody(w, x) || exists h <- w.d.cams, p <- w.f.sdk.frames :: InvokesFor(w, x, h, p)
  }

  /** The camera a dispatched frame belongs to. */
  lemma DispatchedFor(t: Fake.Tables, w: World, p: Addr) returns (h: Id)
    requires Coupled(t, w) && Grounded(w.f.sdk) && Dispatches(w.f, p)
    ensures h in w.d.cams && h in w.f.cameras && SlotsOf(w.d.cams[h]) != []
    ensures w.f.sdk.frames[p].camera == w.f.cameras[h] && w.f.cameras[h] in w.f.sdk.capturing
    ensures Reaches(w.f, p) && Callee(w.f, p).Some? ==> Callee(w.f, p) == Some(User(w.d.cams[h].given))
  {
    var i;
    h, i := OwnerOf(t, w, p);
    assert InFlight(w.f.sdk.frames[p].status);
  }

  lemma InvocationFor(w: World, p: Addr, panics: bool, h: Id)
    requires Dispatches(w.f, p) && Reaches(w.f, p)
    requires h in w.d.cams && h in w.f.cameras && SlotsOf(w.d.cams[h]) != []
    requires w.f.sdk.frames[p].camera == w.f.cameras[h] && w.f.cameras[h] in w.f.sdk.capturing
    requires Callee(w.f, p) == Some(User(w.d.cams[h].given))
    ensures InvokesFor(w, Dispatch(p, panics), h, p)
  {
    DispatchLogs(w.f, p, panics);
  }

  lemma NoInvocation(w: World, p: Addr, panics: bool)
    requires !(Dispatches(w.f, p) && Reaches(w.f, p) && Callee(w.f, p).Some?)
    ensures InvokesNobody(w, Dispatch(p, panics))
  {
    DispatchLogs(w.f, p, panics);
  }

  lemma DispatchInvokes(t: Fake.Tables, w: World, p: Addr, panics: bool)
    requires Coupled(t, w) && Grounded(w.f.sdk)
    ensures InvokesCapturingOnly(w, Dispatch(p, panics))
  {
    if Dispatches(w.f, p) && Reaches(w.f, p) && Callee(w.f, p).Some? {
      var h := DispatchedFor(t, w, p);
      InvocationFor(w, p, panics, h);
    } else {
      NoInvocation(w, p, panics);
    }
  }

  /** At every point of every run, every step invokes nothing or the closure of
      a camera that is capturing and holds slots. A camera that is idle, was
      stopped or dropped, or whose start failed is never called back, whether
      or not the SDK accepted its `capture_end`. */
  lemma OnlyCapturingCamerasAreCalled(w: World, x: Step)
    requires Reachable(w)
    ensures InvokesCapturingOnly(w, x)
  {
    var xs :| Proper(xs) && Run(xs) == w;
    var t := ReachableIsCoupled(w);
    match x
    case Domain(Invoke(who, a)) => if CanCall(w.d, who) { CallsKeepHistory(w.f, CallOf(w.d, who), a); }
    case Domain(_) =>
    case Fire(_, _) =>
    case Dispatch(p, panics) =>
      FramesFlyOnlyWhileCapturing(xs);
      DispatchInvokes(t, w, p, panics);
    case Requeue(_, _) =>
  }

  // --- After a capture ends ---------------------------------------------

  predicate CallsCaptureOf(w: World, x: Step, h: Id, c: Call) {
    && x.Domain? && x.e.Invoke? && x.e.who == Cam(h) && x.e.answer.fail.None?
    && CanCall(w.d, Cam(h)) && CallOf(w.d, Cam(h)) == c
  }

  /** The last step is a `capture_end` of `h` the SDK accepts. */
  predicate EndsWithEnd(xs: seq<Step>, h: Id) {
    xs != [] && CallsCaptureOf(Run(xs[..|xs| - 1]), xs[|xs| - 1], h, CaptureEnd(h))
  }

  /** The continuation `ys` has no successful `capture_start` of `h`. */
  predicate NoRestart(xs: seq<Step>, ys: seq<Step>, h: Id) {
    ys == []
    || (NoRestart(xs, ys[..|ys| - 1], h)
        && !CallsCaptureOf(Run(xs + ys[..|ys| - 1]), ys[|ys| - 1], h, CaptureStart(h)))
  }

  /** `h` was issued, and is not capturing if it is still open. */
  predicate Ended(f: FfiState, h: Id) {
    h <= f.draws && (h in f.cameras ==> f.cameras[h] !in f.sdk.capturing)
  }

  /** What a call of somebody does to the capture of an ended camera. */
  lemma CallKeepsEnded(f: FfiState, c: Call, a: Answer, h: Id)
    requires Ended(f, h) && RawsOk(f.cameras) && Serve(f, c, a).0.draws < U64
    requires !(c == CaptureStart(h) && a.fail.None?)
    ensures Ended(Serve(f, c, a).0, h)
  {
    CallsCapture(f, c, a);
    CallKeepsCameras(f, c, a);
    CallDraws(f, c, a);
    if c.OpenCamera? {
      OpenServed(f, c.name, a);
    }
  }

  lemma CallDraws(f: FfiState, c: Call, a: Answer)
    ensures f.draws <= Serve(f, c, a).0.draws
  {
    if Target(c).None? {
      Simulation.OtherDraws(f, c, a);
    } else if Target(c).value in f.cameras {
      Simulation.CaptureDraws(f, c, f.cameras[Target(c).value], a);
    }
  }

  lemma NobodyElseStarts(d: State, who: Actor, h: Id)
    requires CanCall(d, who) && CallOf(d, who) == CaptureStart(h) && forall k <- d.cams :: d.cams[k].handle == k
    ensures who == Cam(h)
  {
    if who.Cam? {
      NextIsOwn(d.cams[who.h]);
    } else {
      OthersDoNotStart(d, who);
    }
  }

  lemma OthersDoNotStart(d: State, who: Actor)
    requires CanCall(d, who) && !who.Cam?
    ensures !CallOf(d, who).CaptureStart?
  {
  }

  lemma TrampolinesKeepEnded(w: World, x: Step, h: Id)
    requires !x.Domain? && Ended(w.f, h)
    ensures Ended(Take(w, x).f, h)
  {
    match x
    case Fire(p, complete) => FireTouches(w.f, p, complete);
    case Dispatch(p, panics) => DispatchTouches(w.f, p, panics);
    case Requeue(p, accepted) => HandBackTouches(w.f, p, accepted);
  }

  lemma StepKeepsEnded(t: Fake.Tables, w: World, x: Step, h: Id)
    requires Coupled(t, w) && Ended(w.f, h) && Take(w, x).f.draws < U64
    requires !CallsCaptureOf(w, x, h, CaptureStart(h))
    ensures Ended(Take(w, x).f, h)
  {
    if !x.Domain? {
      TrampolinesKeepEnded(w, x, h);
    } else if x.e.Invoke? && CanCall(w.d, x.e.who) {
      forall k <- w.d.cams
        ensures w.d.cams[k].handle == k
      {
        HoldingsIssued(t, w.d, k);
      }
      if CallOf(w.d, x.e.who) == CaptureStart(h) {
        NobodyElseStarts(w.d, x.e.who, h);
      }
      CallKeepsEnded(w.f, CallOf(w.d, x.e.who), x.e.answer, h);
    }
  }

  lemma EndedAtOnce(xs: seq<Step>, h: Id)
    requires Proper(xs) && EndsWithEnd(xs, h)
    ensures Ended(Run(xs).f, h)
  {
    var front := xs[..|xs| - 1];
    ProperPrefix(xs);
    RunsStayCoupled(front);
    EndEnds(FakeTables(front), Run(front), h, xs[|xs| - 1].e.answer);
  }

  lemma EndedAfter(xs: seq<Step>, x: Step, h: Id)
    requires Proper(xs + [x]) && Ended(Run(xs).f, h) && !CallsCaptureOf(Run(xs), x, h, CaptureStart(h))
    ensures Proper(xs) && Ended(Run(xs + [x]).f, h)
  {
    var zs := xs + [x];
    assert zs[..|zs| - 1] == xs;
    ProperPrefix(zs);
    RunsStayCoupled(xs);
    StepKeepsEnded(FakeTables(xs), Run(xs), x, h);
  }

  lemma FrontIsProper(xs: seq<Step>, x: Step)
    requires Proper(xs + [x])
    ensures Proper(xs)
  {
    var zs := xs + [x];
    assert zs[..|zs| - 1] == xs;
    ProperPrefix(zs);
  }

  lemma {:induction false} EndedUntilRestart(xs: seq<Step>, ys: seq<Step>, h: Id)
    requires Proper(xs + ys) && EndsWithEnd(xs, h) && NoRestart(xs, ys, h)
    ensures Ended(Run(xs + ys).f, h)
  {
    if ys == [] {
      assert xs + ys == xs;
      EndedAtOnce(xs, h);
    } else {
      var front, y := xs + ys[..|ys| - 1], ys[|ys| - 1];
      assert xs + ys == front + [y];
      FrontIsProper(front, y);
      EndedUntilRestart(xs, ys[..|ys| - 1], h);
      EndedAfter(front, y, h);
    }
  }

  lemma EndEnds(t: Fake.Tables, w: World, h: Id, a: Answer)
    requires Coupled(t, w) && CanCall(w.d, Cam(h)) && Next(w.d.cams[h]) == CaptureEnd(h) && a.fail.None?
    ensures Ended(Serve(w.f, CaptureEnd(h), a).0, h)
  {
    HoldingsIssued(t, w.d, h);
    CallsCapture(w.f, CaptureEnd(h), a);
    CallKeepsCameras(w.f, CaptureEnd(h), a);
    CallDraws(w.f, CaptureEnd(h), a);
  }

  /** The step invokes nothing, or the closure of a camera other than `h`. */
  predicate InvokesOthersOnly(w: World, x: Step, h: Id) {
    InvokesNobody(w, x) || exists k <- w.d.cams, p <- w.f.sdk.frames :: k != h && InvokesFor(w, x, k, p)
  }

  /** A `capture_end` the SDK accepts silences its camera: however the run
      continues, no step calls the camera's closure until its next successful
      `capture_start`. */
  lemma EndSilences(xs: seq<Step>, ys: seq<Step>, x: Step, h: Id)
    requires Proper(xs + ys) && EndsWithEnd(xs, h) && NoRestart(xs, ys, h)
    ensures InvokesOthersOnly(Run(xs + ys), x, h)
  {
    EndedUntilRestart(xs, ys, h);
    var w := Run(xs + ys);
    assert Reachable(w);
    OnlyCapturingCamerasAreCalled(w, x);
    if !InvokesNobody(w, x) {
      var k, p :| k in w.d.cams && p in w.f.sdk.frames && InvokesFor(w, x, k, p);
      assert k != h;
    }
  }
}
