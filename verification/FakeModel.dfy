/** The in-memory adapter on values: its resource tables, its failure
    injection and its call log. */
module FakeModel {
  import opened Port
  import opened CameraProgram

  /** The resource tables. `draws` counts the ids issued so far; the counter
      the source keeps is `IdAfter(draws)`. */
  datatype Tables = Tables(
    cameras: map<Id, string>,
    announced: map<Id, Id>,
    active: map<Id, seq<(Id, Id)>>,
    frameCallbacks: map<Id, Closure>,
    discoveryCallbacks: map<Id, Closure>,
    discoveryRegs: map<Id, Id>,
    draws: nat)

  const NO_TABLES := Tables(map[], map[], map[], map[], map[], map[], 0)

  function OwnedByOthers(announced: map<Id, Id>, h: Id): map<Id, Id> {
    map s | s in announced && announced[s] != h :: announced[s]
  }

  /** One port call, with the environment's answer decided beforehand. */
  function Serve(t: Tables, c: Call, a: Answer): (Tables, Reply) {
    var id := IdAfter(t.draws);
    var drawn := t.(draws := t.draws + 1);
    match c
    case OpenCamera(name) =>
      if a.fail.Some? then (t, Failed(a.fail.value))
      else if id == 0 then (drawn, Panicked)
      else (drawn.(cameras := t.cameras[id := name]), Got(id))
    case CloseCamera(h) =>
      (t.(cameras := t.cameras - {h}, active := t.active - {h}), Done)
    case RunFeatureCommand(_, _) =>
      if a.fail.Some? then (t, Failed(a.fail.value)) else (t, Done)
    case PayloadSize(_) =>
      if a.fail.Some? then (t, Failed(a.fail.value)) else (t, Size(a.payload))
    case AnnounceFrame(h, _) =>
      if a.fail.Some? then (t, Failed(a.fail.value))
      else (drawn.(announced := t.announced[id := h]), Got(id))
    case CaptureStart(h) =>
      if a.fail.Some? then (t, Failed(a.fail.value))
      else if h in t.active then (t, Done)
      else (t.(active := t.active[h := []]), Done)
    case QueueFrame(h, slot, cb) =>
      if a.fail.Some? then (t, Failed(a.fail.value))
      else
        var queued := if h in t.active then t.active[h] else [];
        (t.(active := t.active[h := queued + [(slot, cb)]]), Done)
    case CaptureEnd(h) => (t.(active := t.active - {h}), Done)
    case CaptureQueueFlush(_) => (t, Done)
    case FrameRevokeAll(h) => (t.(announced := OwnedByOthers(t.announced, h)), Done)
    case RegisterDiscovery(cb) =>
      if a.fail.Some? then (t, Failed(a.fail.value))
      else (drawn.(discoveryRegs := t.discoveryRegs[id := cb]), Got(id))
    case UnregisterDiscovery(r) => (t.(discoveryRegs := t.discoveryRegs - {r}), Done)
    case InstallFrameCallback(f) =>
      (drawn.(frameCallbacks := t.frameCallbacks[id := f]), Got(id))
    case UninstallFrameCallback(cb) => (t.(frameCallbacks := t.frameCallbacks - {cb}), Done)
    case InstallDiscoveryCallback(f) =>
      (drawn.(discoveryCallbacks := t.discoveryCallbacks[id := f]), Got(id))
    case UninstallDiscoveryCallback(cb) =>
      (t.(discoveryCallbacks := t.discoveryCallbacks - {cb}), Done)
  }

  // --- Failure injection ------------------------------------------------

  datatype Method =
    | StartupMethod | ListCamerasMethod | OpenCameraMethod | LoadSettingsMethod
    | RunFeatureCommandMethod | PayloadSizeMethod | AnnounceFrameMethod
    | CaptureStartMethod | QueueFrameMethod | RegisterDiscoveryMethod

  /** `failures` maps (method, call index) to the injected error; `counters`
      counts the calls to each method since construction. */
  datatype Config = Config(
    failures: map<(Method, nat), VmbError>,
    counters: map<Method, nat>,
    payloadSize: nat)

  const DEFAULT_CONFIG := Config(map[], map[], 1024)

  function CounterOf(g: Config, m: Method): nat {
    if m in g.counters then g.counters[m] else 0
  }

  function FailNth(g: Config, m: Method, skip: nat, e: VmbError): Config {
    g.(failures := g.failures[(m, skip) := e])
  }

  function MaybeFail(g: Config, m: Method): (Config, Option<VmbError>) {
    var k := CounterOf(g, m);
    var counted := g.(counters := g.counters[m := k + 1]);
    if (m, k) in g.failures
    then (counted.(failures := g.failures - {(m, k)}), Some(g.failures[(m, k)]))
    else (counted, None)
  }

  /** What a call to a method that can fail does to the injected failures: it
      fails exactly if the entry for this very call is pending, with that
      entry's error; it counts under this method alone and consumes that entry
      alone. */
  predicate Consulted(g: Config, m: Method, g': Config, fail: Option<VmbError>) {
    var k := if m in g.counters then g.counters[m] else 0;
    && fail == (if (m, k) in g.failures then Some(g.failures[(m, k)]) else None)
    && g'.counters == g.counters[m := k + 1]
    && g'.failures == g.failures - {(m, k)}
    && g'.payloadSize == g.payloadSize
  }

  function FailureOf(r: Reply): Option<VmbError> {
    if r.Failed? then Some(r.error) else None
  }

  /** The method a call is counted under, if it can fail at all. */
  function MethodOf(c: Call): Option<Method> {
    match c
    case OpenCamera(_) => Some(OpenCameraMethod)
    case RunFeatureCommand(_, _) => Some(RunFeatureCommandMethod)
    case PayloadSize(_) => Some(PayloadSizeMethod)
    case AnnounceFrame(_, _) => Some(AnnounceFrameMethod)
    case CaptureStart(_) => Some(CaptureStartMethod)
    case QueueFrame(_, _, _) => Some(QueueFrameMethod)
    case RegisterDiscovery(_) => Some(RegisterDiscoveryMethod)
    case _ => None
  }

  // --- The whole fake ---------------------------------------------------

  /** A recorded call: the two installs are recorded by the id they return. */
  datatype FakeCall =
    | Startup
    | Shutdown
    | ListCameras
    | LoadSettings(h: Id, path: string)
    | Plain(call: Call)
    | InstalledFrameCallback(id: Id)
    | InstalledDiscoveryCallback(id: Id)

  datatype Fake = Fake(tables: Tables, config: Config, calls: seq<FakeCall>)

  function Recorded(t: Tables, c: Call): FakeCall {
    match c
    case InstallFrameCallback(_) => InstalledFrameCallback(IdAfter(t.draws))
    case InstallDiscoveryCallback(_) => InstalledDiscoveryCallback(IdAfter(t.draws))
    case _ => Plain(c)
  }

  /** What the configuration answers to a call. */
  function AnswerOf(g: Config, c: Call): (Config, Answer) {
    match MethodOf(c)
    case None => (g, Answer(None, g.payloadSize, 0, 0))
    case Some(m) =>
      var (g', fail) := MaybeFail(g, m);
      (g', Answer(fail, g.payloadSize, 0, 0))
  }

  /** A port call on the fake: record, consult the injected failures, act. */
  function Apply(f: Fake, c: Call): (Fake, Reply) {
    var (g, a) := AnswerOf(f.config, c);
    var (t, r) := Serve(f.tables, c, a);
    (Fake(t, g, f.calls + [Recorded(f.tables, c)]), r)
  }

  // --- A camera alone on the fake ---------------------------------------

  /** Run a camera program until its method returns. */
  function Drive(f: Fake, c: CameraState): (d: (Fake, CameraState))
    requires Shaped(c)
    ensures Shaped(d.1) && !Busy(d.1)
    ensures d.1.handle == c.handle && d.1.given == c.given && d.1.buffers == c.buffers
    decreases Remaining(c)
  {
    if !Busy(c) then (f, c)
    else
      AdvanceProgresses(c, Apply(f, Next(c)).1);
      AdvanceKeepsShape(c, Apply(f, Next(c)).1);
      var (f', r) := Apply(f, Next(c));
      Drive(f', Advance(c, r))
  }

  /** The replies such a run receives, in order. */
  function Replies(f: Fake, c: CameraState): seq<Reply>
    requires Shaped(c)
    decreases Remaining(c)
  {
    if !Busy(c) then []
    else
      AdvanceProgresses(c, Apply(f, Next(c)).1);
      var (f', r) := Apply(f, Next(c));
      [r] + Replies(f', Advance(c, r))
  }
}
