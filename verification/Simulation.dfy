/** The FFI adapter answers every domain-driven run exactly as the fake does,
    as long as no camera revokes its frames while another holds some. */
module Simulation {
  import opened Port
  import opened CameraProgram
  import opened FakeModel
  import opened CameraEffect
  import opened Domain
  import opened TableInvariant
  import FakeWorld
  import Ffi = FfiModel
  import FfiWorld

  /** The two adapters list the same ids and stand at the same counter. */
  predicate Twins(t: Tables, f: Ffi.FfiState) {
    && t.cameras.Keys == f.cameras.Keys
    && t.announced.Keys == f.frames.Keys
    && t.frameCallbacks == f.frameCallbacks
    && t.discoveryCallbacks == f.discoveryCallbacks
    && t.discoveryRegs.Keys == f.discoveryRegs.Keys
    && t.draws == f.draws
  }

  /** The calls on which the FFI adapter raises none of its own errors and
      clears no more than the fake. */
  predicate Answerable(t: Tables, c: Call) {
    && (Ffi.Target(c).Some? ==> Ffi.Target(c).value in t.cameras)
    && match c
       case OpenCamera(name) => '\0' !in name
       case QueueFrame(_, slot, cb) => cb in t.frameCallbacks && slot in t.announced
       case RegisterDiscovery(cb) => cb in t.discoveryCallbacks
       case FrameRevokeAll(h) => OwnedByOthers(t.announced, h) == map[]
       case _ => true
  }

  predicate SameAnswer(t: Tables, f: Ffi.FfiState, c: Call, a: Answer) {
    && Serve(t, c, a).1 == Ffi.Serve(f, c, a).1
    && Twins(Serve(t, c, a).0, Ffi.Serve(f, c, a).0)
  }

  /** Two states of the FFI adapter that list the same ids. */
  predicate SameIds(f: Ffi.FfiState, g: Ffi.FfiState) {
    && f.cameras == g.cameras && f.frames == g.frames && f.frameCallbacks == g.frameCallbacks
    && f.discoveryCallbacks == g.discoveryCallbacks && f.discoveryRegs == g.discoveryRegs && f.draws == g.draws
  }

  predicate Plain(c: Call) {
    c.RunFeatureCommand? || c.PayloadSize? || c.CaptureStart? || c.CaptureEnd? || c.CaptureQueueFlush?
  }

  lemma PlainReplies(t: Tables, f: Ffi.FfiState, c: Call, a: Answer)
    requires Plain(c) && Ffi.Target(c).value in f.cameras
    ensures Serve(t, c, a).1 == Ffi.Serve(f, c, a).1
  {
  }

  lemma PlainKeepsIds(f: Ffi.FfiState, c: Call, a: Answer)
    requires Plain(c)
    ensures SameIds(f, Ffi.Serve(f, c, a).0)
  {
    if Ffi.Target(c).value in f.cameras {
      PlainCaptureKeepsIds(f, c, f.cameras[Ffi.Target(c).value], a);
    }
  }

  lemma PlainCaptureKeepsIds(f: Ffi.FfiState, c: Call, raw: Addr, a: Answer)
    requires Plain(c)
    ensures SameIds(f, Ffi.ServeCapture(f, c, raw, a).0)
  {
  }

  lemma PlainTouchesActive(t: Tables, c: Call, a: Answer)
    requires Plain(c)
    ensures Serve(t, c, a).0 == t.(active := Serve(t, c, a).0.active)
  {
  }

  lemma PlainCallsMatch(t: Tables, f: Ffi.FfiState, c: Call, a: Answer)
    requires Twins(t, f) && Answerable(t, c) && Plain(c)
    ensures SameAnswer(t, f, c, a)
  {
    PlainReplies(t, f, c, a);
    PlainKeepsIds(f, c, a);
    PlainTouchesActive(t, c, a);
  }

  lemma QueueMatches(t: Tables, f: Ffi.FfiState, c: Call, a: Answer)
    requires Twins(t, f) && Answerable(t, c) && c.QueueFrame?
    ensures SameAnswer(t, f, c, a)
  {
  }

  lemma AnnounceMatches(t: Tables, f: Ffi.FfiState, c: Call, a: Answer)
    requires Twins(t, f) && Answerable(t, c) && c.AnnounceFrame?
    ensures SameAnswer(t, f, c, a)
  {
    var id := IdAfter(t.draws);
    assert t.announced[id := c.h].Keys == f.frames[id := a.addr].Keys;
  }

  lemma OpenReplies(t: Tables, f: Ffi.FfiState, name: string, a: Answer)
    requires t.draws == f.draws && '\0' !in name
    ensures Serve(t, OpenCamera(name), a).1 == Ffi.Serve(f, OpenCamera(name), a).1
  {
  }

  lemma OpenTwins(t: Tables, f: Ffi.FfiState, name: string, a: Answer)
    requires Twins(t, f) && '\0' !in name
    ensures Twins(Serve(t, OpenCamera(name), a).0, Ffi.Serve(f, OpenCamera(name), a).0)
  {
    var id := IdAfter(t.draws);
    if a.fail.None? && id != 0 {
      assert t.cameras[id := name].Keys == f.cameras[id := a.raw].Keys;
    }
  }

  lemma OpenMatches(t: Tables, f: Ffi.FfiState, name: string, a: Answer)
    requires Twins(t, f) && '\0' !in name
    ensures SameAnswer(t, f, OpenCamera(name), a)
  {
    OpenReplies(t, f, name, a);
    OpenTwins(t, f, name, a);
  }

  lemma CloseMatches(t: Tables, f: Ffi.FfiState, c: Call, a: Answer)
    requires Twins(t, f) && c.CloseCamera?
    ensures SameAnswer(t, f, c, a)
  {
    assert (t.cameras - {c.h}).Keys == (f.cameras - {c.h}).Keys;
    assert c.h !in f.cameras ==> f.cameras - {c.h} == f.cameras;
  }

  lemma SubscriptionsMatch(t: Tables, f: Ffi.FfiState, c: Call, a: Answer)
    requires Twins(t, f) && Answerable(t, c) && (c.RegisterDiscovery? || c.UnregisterDiscovery?)
    ensures SameAnswer(t, f, c, a)
  {
    if c.RegisterDiscovery? {
      var id := IdAfter(t.draws);
      assert t.discoveryRegs[id := c.cb].Keys == f.discoveryRegs[id := a.addr].Keys;
    } else {
      assert (t.discoveryRegs - {c.r}).Keys == (f.discoveryRegs - {c.r}).Keys;
    }
  }

  lemma CallbacksMatch(t: Tables, f: Ffi.FfiState, c: Call, a: Answer)
    requires Twins(t, f)
    requires c.InstallFrameCallback? || c.UninstallFrameCallback?
          || c.InstallDiscoveryCallback? || c.UninstallDiscoveryCallback?
    ensures SameAnswer(t, f, c, a)
  {
  }

  /** `frame_revoke_all` is where the adapters part: the FFI adapter clears
      the slots of every camera. They stay twins exactly when no other camera
      has a slot announced. */
  lemma RevokeMatchesIff(t: Tables, f: Ffi.FfiState, h: Id, a: Answer)
    requires Twins(t, f) && h in t.cameras
    ensures SameAnswer(t, f, FrameRevokeAll(h), a) <==> forall s <- t.announced :: t.announced[s] == h
  {
    var t', f' := Serve(t, FrameRevokeAll(h), a).0, Ffi.Serve(f, FrameRevokeAll(h), a).0;
    assert t'.announced == OwnedByOthers(t.announced, h) && f'.frames == map[];
    if t'.announced.Keys == f'.frames.Keys {
      forall s <- t.announced
        ensures t.announced[s] == h
      {
        assert s !in t'.announced.Keys;
      }
    }
  }

  /** Both adapters give the same reply to an answerable call and stay twins. */
  lemma CallMatches(t: Tables, f: Ffi.FfiState, c: Call, a: Answer)
    requires Twins(t, f) && Answerable(t, c)
    ensures SameAnswer(t, f, c, a)
  {
    match c
    case OpenCamera(name) => OpenMatches(t, f, name, a);
    case CloseCamera(_) => CloseMatches(t, f, c, a);
    case AnnounceFrame(_, _) => AnnounceMatches(t, f, c, a);
    case QueueFrame(_, _, _) => QueueMatches(t, f, c, a);
    case FrameRevokeAll(h) =>
      assert forall s <- t.announced :: t.announced[s] != h ==> s in OwnedByOthers(t.announced, h);
      RevokeMatchesIff(t, f, h, a);
    case RegisterDiscovery(_) => SubscriptionsMatch(t, f, c, a);
    case UnregisterDiscovery(_) => SubscriptionsMatch(t, f, c, a);
    case InstallFrameCallback(_) => CallbacksMatch(t, f, c, a);
    case UninstallFrameCallback(_) => CallbacksMatch(t, f, c, a);
    case InstallDiscoveryCallback(_) => CallbacksMatch(t, f, c, a);
    case UninstallDiscoveryCallback(_) => CallbacksMatch(t, f, c, a);
    case _ => PlainCallsMatch(t, f, c, a);
  }

  // --- Whole runs -------------------------------------------------------

  /** The fake's view of a run: the trampolines do not exist there. */
  function Erase(xs: seq<FfiWorld.Step>): seq<FakeWorld.Step> {
    if xs == [] then []
    else
      var front := Erase(xs[..|xs| - 1]);
      match xs[|xs| - 1]
      case Domain(e) => front + [FakeWorld.Domain(e)]
      case _ => front
  }

  lemma AllSlotsMine(t: Tables, d: State, h: Id)
    requires TablesMatch(t, d) && FfiWorld.Alone(d.cams, h)
    ensures OwnedByOthers(t.announced, h) == map[]
  {
    forall s <- t.announced
      ensures t.announced[s] == h
    {
      assert s in Slots(d.cams)[t.announced[s]];
    }
  }

  lemma CameraCallsAnswerable(t: Tables, d: State, h: Id)
    requires TablesMatch(t, d) && CanCall(d, Cam(h))
    requires Next(d.cams[h]).FrameRevokeAll? ==> FfiWorld.Alone(d.cams, h)
    ensures Answerable(t, Next(d.cams[h]))
  {
    var c := d.cams[h];
    HoldingsIssued(t, d, h);
    TablesHold(t, d, h);
    if Next(c).FrameRevokeAll? {
      AllSlotsMine(t, d, h);
    }
    HeldCallsAnswerable(t, c);
  }

  lemma HeldCallsAnswerable(t: Tables, c: CameraState)
    requires Busy(c) && Shaped(c) && Holds(t, c) && c.handle in t.cameras
    requires Next(c).FrameRevokeAll? ==> OwnedByOthers(t.announced, c.handle) == map[]
    ensures Answerable(t, Next(c))
  {
    if c.pc.Within? && c.pc.stage.Queueing? {
      assert c.pc.s.slots[c.pc.stage.queued] in SlotsOf(c);
    }
  }

  lemma SubscriberCallsAnswerable(t: Tables, d: State, who: Actor)
    requires SubscriptionsOk(t.discoveryCallbacks, t.discoveryRegs, d.regs)
    requires CanCall(d, who) && !who.Cam?
    requires who.Opener? ==> '\0' !in who.name
    ensures Answerable(t, CallOf(d, who))
  {
  }

  /** Every call the domain makes in an admissible, separated step is
      answerable: none of the FFI adapter's unknown-id errors is reachable. */
  lemma DomainCallsAnswerable(t: Tables, w: FfiWorld.World, who: Actor, a: Answer)
    requires TablesMatch(t, w.d) && CanCall(w.d, who)
    requires FfiWorld.Admissible(w, FfiWorld.Domain(Invoke(who, a)))
    requires FfiWorld.RevokesAlone(w, FfiWorld.Domain(Invoke(who, a)))
    ensures Answerable(t, CallOf(w.d, who))
  {
    if who.Cam? {
      CameraCallsAnswerable(t, w.d, who.h);
    } else {
      SubscriberCallsAnswerable(t, w.d, who);
    }
  }

  lemma TrampolinesKeepIds(w: FfiWorld.World, x: FfiWorld.Step)
    requires !x.Domain?
    ensures FfiWorld.Take(w, x).d == w.d && SameIds(w.f, FfiWorld.Take(w, x).f)
  {
    match x
    case Fire(p, complete) => Ffi.FireTouches(w.f, p, complete);
    case Dispatch(p, panics) => Ffi.DispatchTouches(w.f, p, panics);
    case Requeue(p, accepted) => Ffi.HandBackTouches(w.f, p, accepted);
  }

  /** Simulation: in every run the SDK and its callers can produce in which no
      camera revokes while another holds slots, the two adapters return the
      same ids and the same success or failure at every call -- the clients
      and the whole trace of replies are equal -- and their tables list the
      same keys. */
  lemma {:induction false} FfiSimulatesFake(xs: seq<FfiWorld.Step>)
    requires FfiWorld.Admitted(xs) && FfiWorld.Separated(xs)
    requires FfiWorld.Run(xs).f.draws < U64
    ensures FakeWorld.Run(Erase(xs)).d == FfiWorld.Run(xs).d
    ensures Twins(FakeWorld.Run(Erase(xs)).t, FfiWorld.Run(xs).f)
    ensures TablesMatch(FakeWorld.Run(Erase(xs)).t, FfiWorld.Run(xs).d)
  {
    if xs != [] {
      var front, x := xs[..|xs| - 1], xs[|xs| - 1];
      var v, w := FakeWorld.Run(Erase(front)), FfiWorld.Run(front);
      FfiDraws(w, x);
      FfiSimulatesFake(front);
      if x.Domain? {
        var ys := Erase(xs);
        assert ys[..|ys| - 1] == Erase(front) && ys[|ys| - 1] == FakeWorld.Domain(x.e);
        StepSimulates(v, w, x);
      } else {
        TrampolinesKeepIds(w, x);
      }
    }
  }

  lemma StepSimulates(v: FakeWorld.World, w: FfiWorld.World, x: FfiWorld.Step)
    requires v.d == w.d && Twins(v.t, w.f) && TablesMatch(v.t, w.d) && x.Domain?
    requires FfiWorld.Admissible(w, x) && FfiWorld.RevokesAlone(w, x) && FfiWorld.Take(w, x).f.draws < U64
    ensures var v', w' := FakeWorld.Take(v, FakeWorld.Domain(x.e)), FfiWorld.Take(w, x);
      v'.d == w'.d && Twins(v'.t, w'.f) && TablesMatch(v'.t, w'.d)
  {
    if x.e.Invoke? && CanCall(w.d, x.e.who) {
      DomainCallsAnswerable(v.t, w, x.e.who, x.e.answer);
      CallMatches(v.t, w.f, CallOf(w.d, x.e.who), x.e.answer);
    }
    StepKeepsMatch(v, FakeWorld.Domain(x.e));
  }

  lemma CaptureDraws(f: Ffi.FfiState, c: Call, raw: Addr, a: Answer)
    requires Ffi.Target(c).Some?
    ensures f.draws <= Ffi.ServeCapture(f, c, raw, a).0.draws
  {
  }

  lemma OtherDraws(f: Ffi.FfiState, c: Call, a: Answer)
    requires Ffi.Target(c).None?
    ensures f.draws <= Ffi.ServeOther(f, c, a).0.draws
  {
  }

  lemma FfiDraws(w: FfiWorld.World, x: FfiWorld.Step)
    ensures w.f.draws <= FfiWorld.Take(w, x).f.draws
  {
    if x.Domain? && x.e.Invoke? && CanCall(w.d, x.e.who) {
      var c, a := CallOf(w.d, x.e.who), x.e.answer;
      if Ffi.Target(c).None? {
        OtherDraws(w.f, c, a);
      } else if Ffi.Target(c).value in w.f.cameras {
        CaptureDraws(w.f, c, w.f.cameras[Ffi.Target(c).value], a);
      }
    }
  }

  /** The calls that can be made next in a world, and what is assumed of them. */
  predicate Callable(w: FfiWorld.World, who: Actor, a: Answer) {
    && CanCall(w.d, who)
    && FfiWorld.Admissible(w, FfiWorld.Domain(Invoke(who, a)))
    && FfiWorld.RevokesAlone(w, FfiWorld.Domain(Invoke(who, a)))
  }

  predicate FailsOnlyIfSdkDoes(r: Reply, a: Answer) {
    r.Failed? ==> a.fail == Some(r.error)
  }

  /** A call fails in such a run only because the SDK failed it. */
  lemma OnlySdkErrors(w: FfiWorld.World, who: Actor, a: Answer)
    requires FfiWorld.Reachable(w) && Callable(w, who, a)
    ensures FailsOnlyIfSdkDoes(Ffi.Serve(w.f, CallOf(w.d, who), a).1, a)
  {
    var xs :| FfiWorld.Proper(xs) && FfiWorld.Run(xs) == w;
    var t := FakeWorld.Run(Erase(xs)).t;
    FfiSimulatesFake(xs);
    DomainCallsAnswerable(t, w, who, a);
    CallMatches(t, w.f, CallOf(w.d, who), a);
    FakeErrorsAreInjected(t, CallOf(w.d, who), a);
  }

  lemma FakeErrorsAreInjected(t: Tables, c: Call, a: Answer)
    ensures Serve(t, c, a).1.Failed? ==> a.fail == Some(Serve(t, c, a).1.error)
  {
  }
}
