/** `Camera` as the object the domain hands out: its methods make port calls
    on the fake and keep `session` in place. Each is proved to be the run of
    the camera program of `CameraProgram`, so the contracts of
    `CaptureContract` are contracts of these methods. */
module CameraClient {
  import opened Port
  import opened CameraProgram
  import opened FakeModel
  import opened FakeRuntime
  import opened CaptureContract

  datatype OpenResult = Opening(camera: Camera) | NotOpened(reply: Reply)

  /** One call of a driven program. */
  lemma Stepped(f: Fake, c: CameraState, f': Fake, r: Reply)
    requires Shaped(c) && Busy(c) && Apply(f, Next(c)) == (f', r)
    ensures Shaped(Advance(c, r)) && Drive(f, c) == Drive(f', Advance(c, r))
  {
    AdvanceProgresses(c, r);
  }

  /** Dropping makes the calls of stopping and then closes. */
  lemma {:induction false} DropIsStopThenClose(f: Fake, c: CameraState, d: CameraState)
    requires Shaped(c) && c.pc.Within? && !InStart(c) && c.pc.stage.why == Stopping
    requires d == c.(pc := Within(c.pc.s, c.pc.stage.(why := Dropping)))
    ensures Shaped(d)
    ensures Drive(f, d).0 == Apply(Drive(f, c).0, CloseCamera(c.handle)).0
    ensures Drive(f, d).1.pc.Dropped?
    decreases Remaining(c)
  {
    var (f', r) := Apply(f, Next(c));
    assert Next(d) == Next(c);
    AdvanceProgresses(c, r);
    Stepped(f, c, f', r);
    Stepped(f, d, f', r);
    var c', d' := Advance(c, r), Advance(d, r);
    if c.pc.stage.Uninstalling? {
      assert d'.pc.Closing? && Next(d') == CloseCamera(c.handle);
      Stepped(f', d', Apply(f', Next(d')).0, Apply(f', Next(d')).1);
    } else {
      DropIsStopThenClose(f', c', d');
    }
  }

  function Failure(o: Outcome): Option<VmbError> {
    if o.Err? then Some(o.error) else None
  }

  /** The all-or-nothing contract, for a camera that was idle. */
  ghost predicate StartKept(t: Tables, c: CameraState, t': Tables, c': CameraState) {
    c.session.None? && Unclaimed(t, c.handle) && t'.draws < U64 ==> AllOrNothing(t, c, t', c', Failure(c'.outcome))
  }

  lemma StartIsKept(f: Fake, c: CameraState, buffers: nat, closure: Closure)
    requires c.pc.Ready? && Shaped(c)
    ensures var (f', c') := Drive(f, BeginStart(c, buffers, closure));
      StartKept(f.tables, c, f'.tables, c')
  {
    var (f', c') := Drive(f, BeginStart(c, buffers, closure));
    if c.session.None? && Unclaimed(f.tables, c.handle) && f'.tables.draws < U64 {
      StartAllOrNothing(f, c, buffers, closure, f', c');
    }
  }

  /** The tables `stop_capture` leaves when the camera's session was all that
      had been added to `base`. */
  ghost predicate BackAt(base: Tables, t: Tables, c: CameraState, t': Tables) {
    Primed(base, t, c) && t'.draws < U64 ==> t' == base.(draws := t'.draws)
  }

  lemma RestoredByStop(f: Fake, c: CameraState)
    requires c.pc.Ready? && Shaped(c)
    ensures forall base :: BackAt(base, f.tables, c, Drive(f, BeginStop(c)).0.tables)
  {
    forall base | Primed(base, f.tables, c) && Drive(f, BeginStop(c)).0.tables.draws < U64
      ensures Drive(f, BeginStop(c)).0.tables == base.(draws := Drive(f, BeginStop(c)).0.tables.draws)
    {
      StopRestores(base, f, c, Drive(f, BeginStop(c)).0, Drive(f, BeginStop(c)).1);
    }
  }

  /** `c'` is `c` about to unwind session `s` because of `e`. */
  ghost predicate UnwindingFrom(c: CameraState, c': CameraState, s: Session, e: VmbError) {
    exists live :: c' == c.(pc := Within(s, Ending(live, Unwinding(e))))
  }

  /** The log of a teardown. */
  function TornDown(h: Id, cb: Id): seq<FakeCall> {
    [Plain(CaptureEnd(h)), Plain(CaptureQueueFlush(h)), Plain(FrameRevokeAll(h)), Plain(UninstallFrameCallback(cb))]
  }

  class Camera {
    const runtime: Runtime
    const handle: Id
    const id: string
    var session: Option<Session>
    /** The latest arguments of `StartCapture` and the latest result. */
    ghost var buffers: nat
    ghost var given: Closure
    ghost var outcome: Outcome

    ghost function State(): CameraState
      reads this
    {
      CameraState(handle, session, buffers, given, outcome, Ready)
    }

    ghost predicate Valid()
      reads this, runtime
    {
      runtime.Valid() && Shaped(State())
    }

    constructor (runtime: Runtime, handle: Id, id: string)
      requires runtime.Valid()
      ensures this.runtime == runtime && this.id == id && Valid() && State() == Opened(handle)
    {
      this.runtime, this.handle, this.id := runtime, handle, id;
      session := None;
      buffers, given, outcome := 0, 0, Ok;
    }

    static method Open(runtime: Runtime, id: string) returns (result: OpenResult)
      requires runtime.Valid()
      modifies runtime
      ensures runtime.Valid()
      ensures var (f, r) := Apply(old(runtime.View()), OpenCamera(id));
        && runtime.View() == f
        && match result
           case NotOpened(reply) => reply == r && !r.Got?
           case Opening(camera) =>
             fresh(camera) && r.Got? && camera.Valid() && camera.runtime == runtime && camera.id == id
             && camera.State() == Opened(r.id)
    {
      var r := runtime.OpenCamera(id);
      if !r.Got? {
        return NotOpened(r);
      }
      var camera := new Camera(runtime, r.id, id);
      return Opening(camera);
    }

    /** The four teardown calls shared by the unwind and by `StopCapture`. */
    method TearDown(cb: Id, ghost c: CameraState) returns (ghost c': CameraState)
      requires runtime.Valid() && Shaped(c) && c.handle == handle
      requires c.pc.Within? && c.pc.stage.Ending? && c.pc.s.callbackId == cb
      modifies runtime
      ensures runtime.Valid() && Shaped(c') && c' == Finish(c, c.pc.stage.why)
      ensures Drive(runtime.View(), c') == Drive(old(runtime.View()), c)
      ensures runtime.calls == old(runtime.calls) + TornDown(handle, cb)
    {
      c' := c;
      ghost var f := runtime.View();
      runtime.CaptureEnd(handle);
      Stepped(f, c', runtime.View(), Done);
      c', f := Advance(c', Done), runtime.View();
      runtime.CaptureQueueFlush(handle);
      Stepped(f, c', runtime.View(), Done);
      c', f := Advance(c', Done), runtime.View();
      runtime.FrameRevokeAll(handle);
      Stepped(f, c', runtime.View(), Done);
      c', f := Advance(c', Done), runtime.View();
      runtime.UninstallFrameCallback(cb);
      Stepped(f, c', runtime.View(), Done);
      c' := Advance(c', Done);
    }

    /** The announce loop: stops at the first refusal. */
    method AnnounceAll(numBuffers: nat, payload: nat, cb: Id, ghost c: CameraState)
      returns (slots: seq<Id>, failed: Option<VmbError>, ghost c': CameraState)
      requires runtime.Valid() && Shaped(c) && c.handle == handle && c.buffers == numBuffers
      requires c.session.None? && c.pc == AnnounceLoop(numBuffers, payload, Session(cb, []))
      modifies runtime
      ensures runtime.Valid() && Shaped(c')
      ensures c' == c.(pc := if failed.Some? then Within(Session(cb, slots), Ending(None, Unwinding(failed.value)))
                             else Within(Session(cb, slots), Starting))
      ensures Drive(runtime.View(), c') == Drive(old(runtime.View()), c)
    {
      slots, failed, c' := [], None, c;
      while |slots| < numBuffers
        invariant |slots| <= numBuffers && runtime.Valid() && Shaped(c')
        invariant c' == c.(pc := AnnounceLoop(numBuffers, payload, Session(cb, slots)))
        invariant Drive(runtime.View(), c') == Drive(old(runtime.View()), c)
      {
        ghost var f := runtime.View();
        var r := runtime.AnnounceFrame(handle, payload);
        Stepped(f, c', runtime.View(), r);
        c' := Advance(c', r);
        if r.Failed? {
          failed := Some(r.error);
          return;
        }
        slots := slots + [r.id];
      }
    }

    /** The queue loop: stops at the first refusal. */
    method QueueAll(slots: seq<Id>, cb: Id, ghost c: CameraState)
      returns (failed: Option<VmbError>, ghost c': CameraState)
      requires runtime.Valid() && Shaped(c) && c.handle == handle && c.buffers == |slots|
      requires c.session.None? && c.pc == QueueLoop(Session(cb, slots), 0)
      modifies runtime
      ensures runtime.Valid() && Shaped(c')
      ensures failed.None? ==> c' == c.(pc := Within(Session(cb, slots), Acquiring))
      ensures failed.Some? ==> UnwindingFrom(c, c', Session(cb, slots), failed.value)
      ensures Drive(runtime.View(), c') == Drive(old(runtime.View()), c)
    {
      failed, c' := None, c;
      var k := 0;
      while k < |slots|
        invariant k <= |slots| && runtime.Valid() && Shaped(c')
        invariant c' == c.(pc := QueueLoop(Session(cb, slots), k))
        invariant Drive(runtime.View(), c') == Drive(old(runtime.View()), c)
      {
        ghost var f := runtime.View();
        var r := runtime.QueueFrame(handle, slots[k], cb);
        Stepped(f, c', runtime.View(), r);
        c' := Advance(c', r);
        if r.Failed? {
          failed := Some(r.error);
          return;
        }
        k := k + 1;
      }
    }

    /** The fallible part of `StartCapture`, up to and including
        AcquisitionStart. */
    method Prime(numBuffers: nat, payload: nat, cb: Id, ghost c: CameraState)
      returns (slots: seq<Id>, failed: Option<VmbError>, ghost c': CameraState)
      requires runtime.Valid() && Shaped(c) && c.handle == handle && c.buffers == numBuffers
      requires c.session.None? && c.pc == AnnounceLoop(numBuffers, payload, Session(cb, []))
      modifies runtime
      ensures runtime.Valid() && Shaped(c')
      ensures failed.None? ==> c' == c.(pc := Ready, session := Some(Session(cb, slots)), outcome := Ok)
      ensures failed.Some? ==> UnwindingFrom(c, c', Session(cb, slots), failed.value)
      ensures Drive(runtime.View(), c') == Drive(old(runtime.View()), c)
    {
      slots, failed, c' := AnnounceAll(numBuffers, payload, cb, c);
      if failed.Some? {
        return;
      }
      ghost var f := runtime.View();
      var r := runtime.CaptureStart(handle);
      Stepped(f, c', runtime.View(), r);
      c' := Advance(c', r);
      if r.Failed? {
        return slots, Some(r.error), c';
      }
      failed, c' := QueueAll(slots, cb, c');
      if failed.Some? {
        return;
      }
      f := runtime.View();
      r := runtime.RunFeatureCommand(handle, AcquisitionStart);
      Stepped(f, c', runtime.View(), r);
      c' := Advance(c', r);
      if r.Failed? {
        return slots, Some(r.error), c';
      }
    }

    /** Installs the callback and primes the adapter, or unwinds. */
    method Capture(numBuffers: nat, payload: nat, closure: Closure, ghost c: CameraState)
      returns (started: Session, failed: Option<VmbError>, ghost c': CameraState)
      requires runtime.Valid() && Shaped(c) && c.handle == handle && c.buffers == numBuffers && c.given == closure
      requires c.session.None? && c.pc == Installing(payload)
      modifies runtime
      ensures runtime.Valid() && Shaped(c')
      ensures c' == if failed.Some? then c.(pc := Ready, outcome := Err(failed.value))
                    else c.(pc := Ready, session := Some(started), outcome := Ok)
      ensures Drive(runtime.View(), c') == Drive(old(runtime.View()), c)
    {
      ghost var f := runtime.View();
      var cb := runtime.InstallFrameCallback(closure);
      Stepped(f, c, runtime.View(), Got(cb));
      var slots;
      slots, failed, c' := Prime(numBuffers, payload, cb, Advance(c, Got(cb)));
      started := Session(cb, slots);
      if failed.Some? {
        c' := TearDown(cb, c');
      }
    }

    method StartCapture(numBuffers: nat, closure: Closure) returns (result: Outcome)
      requires Valid()
      modifies this, runtime
      ensures Valid() && result == outcome && (old(session).None? ==> buffers == numBuffers && given == closure)
      ensures (runtime.View(), State()) == Drive(old(runtime.View()), BeginStart(old(State()), numBuffers, closure))
      ensures StartKept(old(runtime.Resources()), old(State()), runtime.Resources(), State())
      ensures old(session).Some? ==>
        && result == Err(CaptureAlreadyRunning) && session == old(session) && runtime.View() == old(runtime.View())
        && buffers == old(buffers) && given == old(given)
      ensures old(session).None? ==> (session.Some? <==> result == Ok)
    {
      ghost var c := BeginStart(State(), numBuffers, closure);
      StartIsKept(runtime.View(), State(), numBuffers, closure);
      if session.Some? {
        outcome := Err(CaptureAlreadyRunning);
        return Err(CaptureAlreadyRunning);
      }
      buffers, given := numBuffers, closure;
      ghost var f := runtime.View();
      var payload := runtime.PayloadSize(handle);
      Stepped(f, c, runtime.View(), payload);
      c := Advance(c, payload);
      if payload.Failed? {
        outcome := Err(payload.error);
        return Err(payload.error);
      }
      var started, failed;
      started, failed, c := Capture(numBuffers, payload.bytes, closure, c);
      if failed.Some? {
        outcome := Err(failed.value);
        return Err(failed.value);
      }
      session := Some(started);
      outcome := Ok;
      return Ok;
    }

    method StopCapture() returns (result: Outcome)
      requires Valid()
      modifies this, runtime
      ensures Valid() && result == outcome == Ok && session.None?
      ensures (runtime.View(), State()) == Drive(old(runtime.View()), BeginStop(old(State())))
      ensures forall base :: BackAt(base, old(runtime.Resources()), old(State()), runtime.Resources())
      ensures old(session).None? ==> runtime.View() == old(runtime.View())
      ensures runtime.calls == old(runtime.calls) + if old(session).None? then [] else
        [Plain(RunFeatureCommand(handle, AcquisitionStop))] + TornDown(handle, old(session).value.callbackId)
    {
      ghost var c := BeginStop(State());
      RestoredByStop(runtime.View(), State());
      outcome := Ok;
      if session.None? {
        return Ok;
      }
      var taken := session.value;
      session := None;
      ghost var f := runtime.View();
      var ignored := runtime.RunFeatureCommand(handle, AcquisitionStop);
      Stepped(f, c, runtime.View(), ignored);
      c := Advance(c, ignored);
      c := TearDown(taken.callbackId, c);
      return Ok;
    }

    /** `Drop`. */
    method Drop()
      requires Valid()
      modifies this, runtime
      ensures runtime.Valid() && session.None?
      ensures runtime.View() == Drive(old(runtime.View()), BeginDrop(old(State()))).0
      ensures Drive(old(runtime.View()), BeginDrop(old(State()))).1.pc.Dropped?
      ensures runtime.calls == old(runtime.calls) + (if old(session).None? then [] else
        [Plain(RunFeatureCommand(handle, AcquisitionStop))] + TornDown(handle, old(session).value.callbackId))
        + [Plain(CloseCamera(handle))]
    {
      ghost var f, c := runtime.View(), State();
      if session.Some? {
        var ignored := StopCapture();
        DropIsStopThenClose(f, BeginStop(c), BeginDrop(c));
        runtime.CloseCamera(handle);
      } else {
        runtime.CloseCamera(handle);
        Stepped(f, BeginDrop(c), runtime.View(), Done);
      }
    }
  }
}
