/** Runs of a system over the FFI adapter, interleaved with the SDK's frame
    callbacks one trampoline stage at a time. */
module FfiWorld {
  import opened Port
  import opened CameraProgram
  import opened Domain
  import Ffi = FfiModel

  datatype Step =
    | Domain(e: Event)
    | Fire(p: Addr, complete: bool)
    | Dispatch(p: Addr, panics: bool)
    | Requeue(p: Addr, accepted: bool)

  datatype World = World(f: Ffi.FfiState, d: State)

  const INITIAL := World(Ffi.NO_FFI, NO_CLIENTS)

  function Take(w: World, x: Step): World {
    match x
    case Domain(Invoke(who, a)) =>
      if CanCall(w.d, who) then
        var (f', r) := Ffi.Serve(w.f, CallOf(w.d, who), a);
        World(f', Receive(w.d, who, r))
      else w
    case Domain(e) => w.(d := Enter(w.d, e))
    case Fire(p, complete) => w.(f := Ffi.EnterTrampoline(w.f, p, complete))
    case Dispatch(p, panics) => w.(f := Ffi.RunCallback(w.f, p, panics))
    case Requeue(p, accepted) => w.(f := Ffi.HandBack(w.f, p, accepted))
  }

  function Run(xs: seq<Step>): World {
    if xs == [] then INITIAL else Take(Run(xs[..|xs| - 1]), xs[|xs| - 1])
  }

  /** What the SDK, the allocator and the caller guarantee about a call: open
      cameras have distinct SDK handles, a box gets an address no live box
      has, blocking calls return only when no callback of the camera runs, and
      camera names contain no NUL. */
  predicate Allowed(f: Ffi.FfiState, c: Call, a: Answer) {
    match c
    case OpenCamera(name) => '\0' !in name && a.raw !in f.cameras.Values
    case AnnounceFrame(_, _) => a.addr !in f.heap
    case CaptureEnd(h) => a.fail.None? && h in f.cameras ==> !Ffi.CallbackRunning(f.sdk, f.cameras[h])
    case FrameRevokeAll(h) => h in f.cameras ==> !Ffi.CallbackRunning(f.sdk, f.cameras[h])
    case _ => true
  }

  predicate Admissible(w: World, x: Step) {
    x.Domain? && x.e.Invoke? && CanCall(w.d, x.e.who) ==> Allowed(w.f, CallOf(w.d, x.e.who), x.e.answer)
  }

  /** No camera but `h` has slots announced. */
  predicate Alone(cams: map<Id, CameraState>, h: Id) {
    forall k <- cams :: k == h || SlotsOf(cams[k]) == []
  }

  /** No camera revokes its frames while another camera has slots announced. */
  predicate RevokesAlone(w: World, x: Step) {
    x.Domain? && x.e.Invoke? && x.e.who.Cam? && CanCall(w.d, x.e.who) && CallOf(w.d, x.e.who).FrameRevokeAll?
    ==> Alone(w.d.cams, x.e.who.h)
  }

  /** The runs the SDK and its callers can produce. */
  predicate Admitted(xs: seq<Step>) {
    xs == [] || (Admitted(xs[..|xs| - 1]) && Admissible(Run(xs[..|xs| - 1]), xs[|xs| - 1]))
  }

  predicate Separated(xs: seq<Step>) {
    xs == [] || (Separated(xs[..|xs| - 1]) && RevokesAlone(Run(xs[..|xs| - 1]), xs[|xs| - 1]))
  }

  predicate Proper(xs: seq<Step>) {
    Admitted(xs) && Separated(xs) && Run(xs).f.draws < U64
  }

  /** The worlds some such run ends in. */
  ghost predicate Reachable(w: World) {
    exists xs :: Proper(xs) && Run(xs) == w
  }
}
