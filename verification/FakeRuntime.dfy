/** The in-memory adapter as the mutable object it is: every port method
    appends to the call log and updates the tables in place. The methods are
    proved against the functions of `FakeModel`. */
module FakeRuntime {
  import opened Port
  import opened FakeModel
  import FakeWorld

  /** An injected failure wins over `AlreadyStarted`; otherwise the flag is set
      and the startup succeeds exactly if it was clear. */
  predicate Started(g: Config, before: bool, g': Config, after: bool, fail: Option<VmbError>, r: Outcome) {
    && Consulted(g, StartupMethod, g', fail)
    && r == (if fail.Some? then Err(fail.value) else if before then Err(AlreadyStarted) else Ok)
    && after == (before || fail.None?)
  }

  class Runtime {
    var started: bool
    var failures: map<(Method, nat), VmbError>
    var counters: map<Method, nat>
    var cameraList: seq<string>
    var payload: nat
    var calls: seq<FakeCall>
    var cameras: map<Id, string>
    var announcedFrames: map<Id, Id>
    var activeCaptures: map<Id, seq<(Id, Id)>>
    var frameCallbacks: map<Id, Closure>
    var discoveryCallbacks: map<Id, Closure>
    var discoveryRegs: map<Id, Id>
    /** The 64-bit counter, and how often it was drawn from. */
    var counter: nat
    ghost var draws: nat

    ghost predicate Valid()
      reads this
    {
      counter == IdAfter(draws)
    }

    ghost function Resources(): Tables
      reads this
    {
      Tables(cameras, announcedFrames, activeCaptures, frameCallbacks, discoveryCallbacks, discoveryRegs, draws)
    }

    ghost function Knobs(): Config
      reads this
    {
      Config(failures, counters, payload)
    }

    ghost function View(): Fake
      reads this
    {
      Fake(Resources(), Knobs(), calls)
    }

    constructor ()
      ensures Valid() && View() == Fake(NO_TABLES, DEFAULT_CONFIG, []) && !started && cameraList == []
      ensures failures == map[] && counters == map[] && payload == 1024 && counter == 1
    {
      started := false;
      failures, counters, cameraList, payload := map[], map[], [], 1024;
      calls := [];
      cameras, announcedFrames, activeCaptures := map[], map[], map[];
      frameCallbacks, discoveryCallbacks, discoveryRegs := map[], map[], map[];
      counter := 1;
      draws := 0;
    }

    // --- Shared steps ---------------------------------------------------

    /** `fetch_add(1)`: returns the old value and wraps at 2^64. */
    method NextU64() returns (id: Id)
      requires Valid()
      modifies `counter, `draws
      ensures Valid() && draws == old(draws) + 1 && id == IdAfter(old(draws))
    {
      id := counter;
      counter := (counter + 1) % 0x1_0000_0000_0000_0000;
      draws := draws + 1;
    }

    /** `next_id` panics on the one draw in 2^64 that is zero. */
    method NextId() returns (id: Option<Id>)
      requires Valid()
      modifies `counter, `draws
      ensures Valid() && draws == old(draws) + 1
      ensures id == if IdAfter(old(draws)) == 0 then None else Some(IdAfter(old(draws)))
    {
      var n := NextU64();
      id := if n == 0 then None else Some(n);
    }

    method Record(call: FakeCall)
      modifies `calls
      ensures calls == old(calls) + [call]
    {
      calls := calls + [call];
    }

    method MaybeFail(m: Method) returns (fail: Option<VmbError>)
      modifies `counters, `failures
      ensures (Knobs(), fail) == FakeModel.MaybeFail(old(Knobs()), m)
      ensures Consulted(old(Knobs()), m, Knobs(), fail)
    {
      var idx := if m in counters then counters[m] else 0;
      counters := counters[m := idx + 1];
      if (m, idx) in failures {
        fail := Some(failures[(m, idx)]);
        failures := failures - {(m, idx)};
      } else {
        fail := None;
        assert failures - {(m, idx)} == failures;
      }
    }

    // --- Knobs ----------------------------------------------------------

    method FailNth(m: Method, skip: nat, e: VmbError)
      modifies `failures
      ensures Knobs() == FakeModel.FailNth(old(Knobs()), m, skip, e)
      ensures failures == old(failures)[(m, skip) := e]
    {
      failures := failures[(m, skip) := e];
    }

    method FailNext(m: Method, e: VmbError)
      modifies `failures
      ensures Knobs() == FakeModel.FailNth(old(Knobs()), m, 0, e)
      ensures failures == old(failures)[(m, 0) := e]
    {
      FailNth(m, 0, e);
    }

    method SetCameraList(cameras: seq<string>)
      modifies `cameraList
      ensures cameraList == cameras
    {
      cameraList := cameras;
    }

    method SetPayloadSize(size: nat)
      modifies `payload
      ensures payload == size
    {
      payload := size;
    }

    // --- Lifecycle ------------------------------------------------------

    method Startup() returns (r: Outcome)
      modifies `calls, `counters, `failures, `started
      ensures calls == old(calls) + [FakeCall.Startup]
      ensures exists fail :: Started(old(Knobs()), old(started), Knobs(), started, fail, r)
    {
      Record(FakeCall.Startup);
      var fail := MaybeFail(StartupMethod);
      if fail.Some? {
        r := Err(fail.value);
      } else if started {
        r := Err(AlreadyStarted);
      } else {
        started := true;
        r := Ok;
      }
      assert Started(old(Knobs()), old(started), Knobs(), started, fail, r);
    }

    method Shutdown()
      modifies `calls, `started
      ensures calls == old(calls) + [FakeCall.Shutdown] && !started
    {
      Record(FakeCall.Shutdown);
      started := false;
    }

    // --- Cameras --------------------------------------------------------

    method ListCameras() returns (r: Reply, cameras: seq<string>)
      modifies `calls, `counters, `failures
      ensures calls == old(calls) + [FakeCall.ListCameras]
      ensures Consulted(old(Knobs()), ListCamerasMethod, Knobs(), FailureOf(r))
      ensures if r.Failed? then cameras == [] else r == Done && cameras == cameraList
    {
      Record(FakeCall.ListCameras);
      var fail := MaybeFail(ListCamerasMethod);
      if fail.Some? {
        return Failed(fail.value), [];
      }
      return Done, cameraList;
    }

    method OpenCamera(name: string) returns (r: Reply)
      requires Valid()
      modifies this
      ensures Valid() && (View(), r) == Apply(old(View()), Call.OpenCamera(name))
      ensures calls == old(calls) + [Plain(Call.OpenCamera(name))]
      ensures Consulted(old(Knobs()), OpenCameraMethod, Knobs(), FailureOf(r))
      ensures if r.Got? then r.id != 0 && cameras == old(cameras)[r.id := name] else cameras == old(cameras)
      ensures started == old(started) && cameraList == old(cameraList)
    {
      Record(Plain(Call.OpenCamera(name)));
      var fail := MaybeFail(OpenCameraMethod);
      if fail.Some? {
        return Failed(fail.value);
      }
      r := InsertCamera(name);
    }

    /** The part of `OpenCamera` that can no longer fail, but can panic. */
    method InsertCamera(name: string) returns (r: Reply)
      requires Valid()
      modifies `counter, `draws, `cameras
      ensures Valid() && !r.Failed?
      ensures (Resources(), r) == Serve(old(Resources()), Call.OpenCamera(name), Answer(None, payload, 0, 0))
      ensures if r.Got? then r.id != 0 && cameras == old(cameras)[r.id := name] else cameras == old(cameras)
    {
      var h := NextId();
      if h.None? {
        return Panicked;
      }
      cameras := cameras[h.value := name];
      return Got(h.value);
    }

    method CloseCamera(h: Id)
      requires Valid()
      modifies `calls, `cameras, `activeCaptures
      ensures Valid() && View() == Apply(old(View()), Call.CloseCamera(h)).0
      ensures calls == old(calls) + [Plain(Call.CloseCamera(h))]
      ensures cameras == old(cameras) - {h} && activeCaptures == old(activeCaptures) - {h}
    {
      Record(Plain(Call.CloseCamera(h)));
      cameras := cameras - {h};
      activeCaptures := activeCaptures - {h};
    }

    method LoadSettings(h: Id, path: string) returns (r: Outcome)
      modifies `calls, `counters, `failures
      ensures calls == old(calls) + [FakeCall.LoadSettings(h, path)]
      ensures Consulted(old(Knobs()), LoadSettingsMethod, Knobs(), if r.Err? then Some(r.error) else None)
    {
      Record(FakeCall.LoadSettings(h, path));
      var fail := MaybeFail(LoadSettingsMethod);
      r := if fail.Some? then Err(fail.value) else Ok;
    }

    method RunFeatureCommand(h: Id, command: Command) returns (r: Reply)
      requires Valid()
      modifies `calls, `counters, `failures
      ensures Valid() && (View(), r) == Apply(old(View()), Call.RunFeatureCommand(h, command))
      ensures calls == old(calls) + [Plain(Call.RunFeatureCommand(h, command))]
      ensures Consulted(old(Knobs()), RunFeatureCommandMethod, Knobs(), FailureOf(r))
      ensures r.Done? || r.Failed?
    {
      Record(Plain(Call.RunFeatureCommand(h, command)));
      var fail := MaybeFail(RunFeatureCommandMethod);
      r := if fail.Some? then Failed(fail.value) else Done;
    }

    // --- Capture --------------------------------------------------------

    method PayloadSize(h: Id) returns (r: Reply)
      requires Valid()
      modifies `calls, `counters, `failures
      ensures Valid() && (View(), r) == Apply(old(View()), Call.PayloadSize(h))
      ensures calls == old(calls) + [Plain(Call.PayloadSize(h))]
      ensures Consulted(old(Knobs()), PayloadSizeMethod, Knobs(), FailureOf(r))
      ensures r.Size? ==> r.bytes == payload
      ensures r.Size? || r.Failed?
    {
      Record(Plain(Call.PayloadSize(h)));
      var fail := MaybeFail(PayloadSizeMethod);
      r := if fail.Some? then Failed(fail.value) else Size(payload);
    }

    method AnnounceFrame(h: Id, size: nat) returns (r: Reply)
      requires Valid()
      modifies `calls, `counters, `failures, `counter, `draws, `announcedFrames
      ensures Valid() && (View(), r) == Apply(old(View()), Call.AnnounceFrame(h, size))
      ensures calls == old(calls) + [Plain(Call.AnnounceFrame(h, size))]
      ensures Consulted(old(Knobs()), AnnounceFrameMethod, Knobs(), FailureOf(r))
      ensures announcedFrames == if r.Got? then old(announcedFrames)[r.id := h] else old(announcedFrames)
      ensures r.Got? || r.Failed?
    {
      Record(Plain(Call.AnnounceFrame(h, size)));
      var fail := MaybeFail(AnnounceFrameMethod);
      if fail.Some? {
        return Failed(fail.value);
      }
      var slot := NextU64();
      announcedFrames := announcedFrames[slot := h];
      return Got(slot);
    }

    method CaptureStart(h: Id) returns (r: Reply)
      requires Valid()
      modifies `calls, `counters, `failures, `activeCaptures
      ensures Valid() && (View(), r) == Apply(old(View()), Call.CaptureStart(h))
      ensures calls == old(calls) + [Plain(Call.CaptureStart(h))]
      ensures Consulted(old(Knobs()), CaptureStartMethod, Knobs(), FailureOf(r))
      ensures activeCaptures
           == if r.Done? && h !in old(activeCaptures) then old(activeCaptures)[h := []] else old(activeCaptures)
      ensures r.Done? || r.Failed?
    {
      Record(Plain(Call.CaptureStart(h)));
      var fail := MaybeFail(CaptureStartMethod);
      if fail.Some? {
        return Failed(fail.value);
      }
      if h !in activeCaptures {
        activeCaptures := activeCaptures[h := []];
      }
      return Done;
    }

    method QueueFrame(h: Id, slot: Id, cb: Id) returns (r: Reply)
      requires Valid()
      modifies `calls, `counters, `failures, `activeCaptures
      ensures Valid() && (View(), r) == Apply(old(View()), Call.QueueFrame(h, slot, cb))
      ensures calls == old(calls) + [Plain(Call.QueueFrame(h, slot, cb))]
      ensures Consulted(old(Knobs()), QueueFrameMethod, Knobs(), FailureOf(r))
      ensures r.Failed? ==> activeCaptures == old(activeCaptures)
      ensures r.Done? ==> activeCaptures == old(activeCaptures)[h :=
        (if h in old(activeCaptures) then old(activeCaptures)[h] else []) + [(slot, cb)]]
      ensures r.Done? || r.Failed?
    {
      Record(Plain(Call.QueueFrame(h, slot, cb)));
      var fail := MaybeFail(QueueFrameMethod);
      if fail.Some? {
        return Failed(fail.value);
      }
      var queued := if h in activeCaptures then activeCaptures[h] else [];
      activeCaptures := activeCaptures[h := queued + [(slot, cb)]];
      return Done;
    }

    method CaptureEnd(h: Id)
      requires Valid()
      modifies `calls, `activeCaptures
      ensures Valid() && (View(), Done) == Apply(old(View()), Call.CaptureEnd(h))
      ensures calls == old(calls) + [Plain(Call.CaptureEnd(h))]
      ensures activeCaptures == old(activeCaptures) - {h}
    {
      Record(Plain(Call.CaptureEnd(h)));
      activeCaptures := activeCaptures - {h};
    }

    method CaptureQueueFlush(h: Id)
      requires Valid()
      modifies `calls
      ensures Valid() && (View(), Done) == Apply(old(View()), Call.CaptureQueueFlush(h))
      ensures calls == old(calls) + [Plain(Call.CaptureQueueFlush(h))]
    {
      Record(Plain(Call.CaptureQueueFlush(h)));
    }

    method FrameRevokeAll(h: Id)
      requires Valid()
      modifies `calls, `announcedFrames
      ensures Valid() && (View(), Done) == Apply(old(View()), Call.FrameRevokeAll(h))
      ensures calls == old(calls) + [Plain(Call.FrameRevokeAll(h))]
      ensures forall s :: s in announcedFrames <==> s in old(announcedFrames) && old(announcedFrames)[s] != h
      ensures forall s <- announcedFrames :: announcedFrames[s] == old(announcedFrames)[s]
    {
      Record(Plain(Call.FrameRevokeAll(h)));
      announcedFrames := map s | s in announcedFrames && announcedFrames[s] != h :: announcedFrames[s];
    }

    // --- Discovery ------------------------------------------------------

    method RegisterDiscovery(cb: Id) returns (r: Reply)
      requires Valid()
      modifies `calls, `counters, `failures, `counter, `draws, `discoveryRegs
      ensures Valid() && (View(), r) == Apply(old(View()), Call.RegisterDiscovery(cb))
      ensures calls == old(calls) + [Plain(Call.RegisterDiscovery(cb))]
      ensures Consulted(old(Knobs()), RegisterDiscoveryMethod, Knobs(), FailureOf(r))
      ensures discoveryRegs == if r.Got? then old(discoveryRegs)[r.id := cb] else old(discoveryRegs)
      ensures r.Got? || r.Failed?
    {
      Record(Plain(Call.RegisterDiscovery(cb)));
      var fail := MaybeFail(RegisterDiscoveryMethod);
      if fail.Some? {
        return Failed(fail.value);
      }
      var h := InsertRegistration(cb);
      return Got(h);
    }

    method InsertRegistration(cb: Id) returns (h: Id)
      requires Valid()
      modifies `counter, `draws, `discoveryRegs
      ensures Valid() && discoveryRegs == old(discoveryRegs)[h := cb]
      ensures (Resources(), Got(h)) == Serve(old(Resources()), Call.RegisterDiscovery(cb), Answer(None, payload, 0, 0))
    {
      h := NextU64();
      discoveryRegs := discoveryRegs[h := cb];
    }

    method UnregisterDiscovery(reg: Id)
      requires Valid()
      modifies `calls, `discoveryRegs
      ensures Valid() && (View(), Done) == Apply(old(View()), Call.UnregisterDiscovery(reg))
      ensures calls == old(calls) + [Plain(Call.UnregisterDiscovery(reg))]
      ensures discoveryRegs == old(discoveryRegs) - {reg}
    {
      Record(Plain(Call.UnregisterDiscovery(reg)));
      discoveryRegs := discoveryRegs - {reg};
    }

    // --- Callback installation ------------------------------------------

    method InstallFrameCallback(closure: Closure) returns (id: Id)
      requires Valid()
      modifies `calls, `counter, `draws, `frameCallbacks
      ensures Valid() && (View(), Got(id)) == Apply(old(View()), Call.InstallFrameCallback(closure))
      ensures calls == old(calls) + [InstalledFrameCallback(id)] && frameCallbacks == old(frameCallbacks)[id := closure]
    {
      id := NextU64();
      Record(InstalledFrameCallback(id));
      frameCallbacks := frameCallbacks[id := closure];
    }

    method UninstallFrameCallback(id: Id)
      requires Valid()
      modifies `calls, `frameCallbacks
      ensures Valid() && (View(), Done) == Apply(old(View()), Call.UninstallFrameCallback(id))
      ensures calls == old(calls) + [Plain(Call.UninstallFrameCallback(id))]
      ensures frameCallbacks == old(frameCallbacks) - {id}
    {
      Record(Plain(Call.UninstallFrameCallback(id)));
      frameCallbacks := frameCallbacks - {id};
    }

    method InstallDiscoveryCallback(closure: Closure) returns (id: Id)
      requires Valid()
      modifies `calls, `counter, `draws, `discoveryCallbacks
      ensures Valid() && (View(), Got(id)) == Apply(old(View()), Call.InstallDiscoveryCallback(closure))
      ensures calls == old(calls) + [InstalledDiscoveryCallback(id)]
      ensures discoveryCallbacks == old(discoveryCallbacks)[id := closure]
    {
      id := NextU64();
      Record(InstalledDiscoveryCallback(id));
      discoveryCallbacks := discoveryCallbacks[id := closure];
    }

    method UninstallDiscoveryCallback(id: Id)
      requires Valid()
      modifies `calls, `discoveryCallbacks
      ensures Valid() && (View(), Done) == Apply(old(View()), Call.UninstallDiscoveryCallback(id))
      ensures calls == old(calls) + [Plain(Call.UninstallDiscoveryCallback(id))]
      ensures discoveryCallbacks == old(discoveryCallbacks) - {id}
    {
      Record(Plain(Call.UninstallDiscoveryCallback(id)));
      discoveryCallbacks := discoveryCallbacks - {id};
    }

    // --- Driving callbacks ----------------------------------------------

    /** Returns the closure invoked and the frame id it is given, if a frame
        is delivered. */
    method DeliverFrame(h: Id) returns (out: Option<FakeWorld.Delivery>)
      requires Valid()
      modifies `counter, `draws
      ensures Valid() && (Resources(), out) == FakeWorld.DeliverFrame(old(Resources()), h)
      ensures out.Some? <==>
        h in activeCaptures && activeCaptures[h] != [] && activeCaptures[h][0].1 in frameCallbacks
      ensures out.Some? ==>
        && out.value == FakeWorld.Delivery(h, frameCallbacks[activeCaptures[h][0].1], IdAfter(old(draws)))
        && draws == old(draws) + 1
      ensures out.None? ==> draws == old(draws)
    {
      if h !in activeCaptures || activeCaptures[h] == [] {
        return None;
      }
      var cb := activeCaptures[h][0].1;
      if cb !in frameCallbacks {
        return None;
      }
      var frameId := NextU64();
      return Some(FakeWorld.Delivery(h, frameCallbacks[cb], frameId));
    }

    /** Takes a snapshot of the installed callbacks and invokes each; returns
        the ids in the order of invocation and the closures invoked. */
    method EmitDiscovery() returns (order: seq<Id>, invoked: seq<Closure>)
      ensures FakeWorld.Emitted(discoveryCallbacks, order, invoked)
    {
      var left := discoveryCallbacks.Keys;
      order, invoked := [], [];
      while left != {}
        invariant left <= discoveryCallbacks.Keys && |order| == |invoked|
        invariant multiset(order) + multiset(left) == multiset(discoveryCallbacks.Keys)
        invariant forall i :: 0 <= i < |order| ==>
          order[i] in discoveryCallbacks && invoked[i] == discoveryCallbacks[order[i]]
      {
        var cb :| cb in left;
        left := left - {cb};
        order, invoked := order + [cb], invoked + [discoveryCallbacks[cb]];
      }
    }
  }
}
