/** The raw frame pointers the SDK holds, over every run of the FFI adapter
    interleaved with its frame callbacks. */
module FrameLiveness {
  import opened Port
  import opened CameraProgram
  import Fake = FakeModel
  import opened CameraEffect
  import opened Domain
  import opened TableInvariant
  import Simulation
  import opened FfiModel
  import opened FfiWorld

  /** Every slot owns its own live box, whose frame points back at it. */
  predicate BoxesOk(frames: map<Id, Addr>, heap: map<Addr, Context>) {
    && frames.Values == heap.Keys
    && (forall s <- frames, s' <- frames :: frames[s] == frames[s'] ==> s == s')
    && (forall p <- heap :: heap[p].context0 == Some(p))
  }

  predicate RawsOk(cameras: map<Id, Addr>) {
    forall h <- cameras, h' <- cameras :: cameras[h] == cameras[h'] ==> h == h'
  }

  /** How many slots the camera has queued. */
  function QueuedNow(c: CameraState): nat {
    if LiveOf(c).Some? then LiveOf(c).value else 0
  }

  /** Between `capture_end` and `frame_revoke_all` the queue is unspecified. */
  predicate Draining(c: CameraState) {
    c.pc.Within? && (c.pc.stage.Flushing? || c.pc.stage.Revoking?)
  }

  /** The i-th slot of a camera: its box is live, the SDK holds the frame for
      that camera, and a frame that left the announced state dispatches to the
      closure of the camera's latest `start_capture`. */
  predicate SlotOk(f: FfiState, c: CameraState, i: nat)
    requires i < |SlotsOf(c)| && c.handle in f.cameras
  {
    var s := SlotsOf(c)[i];
    && s in f.frames && f.frames[s] in f.heap && f.frames[s] in f.sdk.frames
    && var p := f.frames[s];
       var x := f.sdk.frames[p];
       && x.camera == f.cameras[c.handle]
       && (!x.status.Announced? ==> f.heap[p].callback == User(c.given))
       && (Draining(c) || (x.status.Announced? <==> i >= QueuedNow(c)))
  }

  predicate CameraFrames(f: FfiState, c: CameraState)
    requires c.handle in f.cameras
  {
    forall i :: 0 <= i < |SlotsOf(c)| ==> SlotOk(f, c, i)
  }

  predicate FramesOk(f: FfiState, cams: map<Id, CameraState>) {
    && BoxesOk(f.frames, f.heap)
    && f.sdk.frames.Keys == f.heap.Keys
    && RawsOk(f.cameras)
    && forall h <- cams :: cams[h].handle in f.cameras && CameraFrames(f, cams[h])
  }

  /** Nothing a camera's frames depend on changed. */
  predicate SameFrames(f: FfiState, g: FfiState) {
    f.frames == g.frames && f.heap == g.heap && f.sdk.frames == g.sdk.frames
  }

  lemma SameFramesKeep(f: FfiState, c: CameraState, g: FfiState, c': CameraState)
    requires c.handle in f.cameras && CameraFrames(f, c) && SameFrames(f, g)
    requires c'.handle == c.handle && c.handle in g.cameras && g.cameras[c.handle] == f.cameras[c.handle]
    requires SlotsOf(c') == SlotsOf(c) && (SlotsOf(c) != [] ==> c'.given == c.given)
    requires Draining(c') || (QueuedNow(c') == QueuedNow(c) && !Draining(c))
    ensures CameraFrames(g, c')
  {
    forall i | 0 <= i < |SlotsOf(c')|
      ensures SlotOk(g, c', i)
    {
      assert SlotOk(f, c, i);
    }
  }

  // --- The trampolines --------------------------------------------------

  /** Only statuses changed, and none to or from announced. */
  predicate Stirred(f: FfiState, g: FfiState) {
    && f.cameras == g.cameras && f.frames == g.frames && f.heap == g.heap
    && f.sdk.frames.Keys == g.sdk.frames.Keys
    && forall p <- f.sdk.frames ::
         g.sdk.frames[p].camera == f.sdk.frames[p].camera
         && (g.sdk.frames[p].status.Announced? <==> f.sdk.frames[p].status.Announced?)
  }

  lemma StirredKeeps(f: FfiState, g: FfiState, cams: map<Id, CameraState>)
    requires FramesOk(f, cams) && Stirred(f, g)
    ensures FramesOk(g, cams)
  {
    forall h <- cams
      ensures CameraFrames(g, cams[h])
    {
      forall i | 0 <= i < |SlotsOf(cams[h])|
        ensures SlotOk(g, cams[h], i)
      {
        assert SlotOk(f, cams[h], i);
      }
    }
  }

  lemma FireStirs(f: FfiState, p: Addr, complete: bool)
    ensures Stirred(f, EnterTrampoline(f, p, complete))
  {
    FireTouches(f, p, complete);
  }

  lemma DispatchStirs(f: FfiState, p: Addr, panics: bool)
    ensures Stirred(f, RunCallback(f, p, panics))
  {
    DispatchTouches(f, p, panics);
  }

  lemma HandBackStirs(f: FfiState, p: Addr, accepted: bool)
    ensures Stirred(f, HandBack(f, p, accepted))
  {
    HandBackTouches(f, p, accepted);
  }

  lemma TrampolinesKeepFrames(w: World, x: Step)
    requires FramesOk(w.f, w.d.cams) && !x.Domain?
    ensures FramesOk(Take(w, x).f, Take(w, x).d.cams)
  {
    match x
    case Fire(p, complete) =>
      FireStirs(w.f, p, complete);
      StirredKeeps(w.f, EnterTrampoline(w.f, p, complete), w.d.cams);
    case Dispatch(p, panics) =>
      DispatchStirs(w.f, p, panics);
      StirredKeeps(w.f, RunCallback(w.f, p, panics), w.d.cams);
    case Requeue(p, accepted) =>
      HandBackStirs(w.f, p, accepted);
      StirredKeeps(w.f, HandBack(w.f, p, accepted), w.d.cams);
  }

  // --- Port calls that leave the frames alone ---------------------------

  predicate Quiet(c: Call) {
    !c.AnnounceFrame? && !c.QueueFrame? && !c.CaptureQueueFlush? && !c.FrameRevokeAll?
  }

  lemma QuietCaptureKeepsFrames(f: FfiState, c: Call, raw: Addr, a: Answer)
    requires Quiet(c) && Target(c).Some?
    ensures SameFrames(f, ServeCapture(f, c, raw, a).0) && ServeCapture(f, c, raw, a).0.cameras == f.cameras
  {
  }

  lemma OtherCallKeepsFrames(f: FfiState, c: Call, a: Answer)
    requires Target(c).None?
    ensures SameFrames(f, ServeOther(f, c, a).0)
    ensures !c.OpenCamera? && !c.CloseCamera? ==> ServeOther(f, c, a).0.cameras == f.cameras
  {
  }

  lemma QuietCallKeepsFrames(f: FfiState, c: Call, a: Answer)
    requires Quiet(c)
    ensures SameFrames(f, Serve(f, c, a).0)
    ensures !c.OpenCamera? && !c.CloseCamera? ==> Serve(f, c, a).0.cameras == f.cameras
  {
    if Target(c).None? {
      OtherCallKeepsFrames(f, c, a);
    } else if Target(c).value in f.cameras {
      QuietCaptureKeepsFrames(f, c, f.cameras[Target(c).value], a);
    }
  }

  predicate Carries(c: CameraState, c': CameraState) {
    && c'.handle == c.handle && SlotsOf(c') == SlotsOf(c)
    && (SlotsOf(c) != [] ==> c'.given == c.given)
    && (Draining(c') || (QueuedNow(c') == QueuedNow(c) && !Draining(c)))
  }

  lemma QuietAdvanceCarries(c: CameraState, r: Reply)
    requires Busy(c) && Shaped(c) && Quiet(Next(c))
    ensures Carries(c, Advance(c, r))
  {
  }

  lemma QuietStepKeepsFrames(f: FfiState, cams: map<Id, CameraState>, h: Id, a: Answer)
    requires FramesOk(f, cams) && h in cams && cams[h].handle == h
    requires Busy(cams[h]) && Shaped(cams[h]) && Quiet(Next(cams[h])) && !cams[h].pc.Closing?
    requires forall k <- cams :: cams[k].handle == k
    ensures var (f', r) := Serve(f, Next(cams[h]), a);
      FramesOk(f', cams[h := Advance(cams[h], r)])
  {
    var c := cams[h];
    var (f', r) := Serve(f, Next(c), a);
    QuietCallKeepsFrames(f, Next(c), a);
    QuietAdvanceCarries(c, r);
    SameFramesKeep(f, c, f', Advance(c, r));
    forall k | k in cams && k != h
      ensures CameraFrames(f', cams[k])
    {
      UntouchedKeep(f, f', cams[k]);
    }
  }

  /** A camera none of whose boxes changed, for whatever its program does. */
  predicate Untouched(f: FfiState, g: FfiState, c: CameraState)
    requires c.handle in f.cameras
  {
    && c.handle in g.cameras && g.cameras[c.handle] == f.cameras[c.handle]
    && forall s <- SlotsOf(c) ::
         s in f.frames && s in g.frames && g.frames[s] == f.frames[s]
         && f.frames[s] in f.heap && f.frames[s] in g.heap
         && g.heap[f.frames[s]] == f.heap[f.frames[s]]
         && f.frames[s] in f.sdk.frames && f.frames[s] in g.sdk.frames
         && g.sdk.frames[f.frames[s]] == f.sdk.frames[f.frames[s]]
  }

  lemma UntouchedKeep(f: FfiState, g: FfiState, c: CameraState)
    requires c.handle in f.cameras && CameraFrames(f, c)
    requires Untouched(f, g, c) || (SameFrames(f, g) && g.cameras == f.cameras)
    ensures c.handle in g.cameras && CameraFrames(g, c)
  {
    forall i | 0 <= i < |SlotsOf(c)|
      ensures SlotOk(g, c, i)
    {
      assert SlotOk(f, c, i);
      assert SlotsOf(c)[i] in SlotsOf(c);
    }
  }

  // --- Announcing -------------------------------------------------------

  lemma AnnounceKeepsBoxes(frames: map<Id, Addr>, heap: map<Addr, Context>, s: Id, p: Addr)
    requires BoxesOk(frames, heap) && s !in frames && p !in heap
    ensures BoxesOk(frames[s := p], heap[p := Context(Placeholder, Some(p))])
  {
    var frames', heap' := frames[s := p], heap[p := Context(Placeholder, Some(p))];
    assert forall x <- frames :: frames[x] in frames.Values && frames'[x] == frames[x];
    forall q
      ensures q in frames'.Values <==> q in heap'.Keys
    {
      if q == p {
        assert frames'[s] == p;
      } else if q in heap {
        assert q in frames.Values;
        var x :| x in frames && frames[x] == q;
        assert frames'[x] == q;
      }
    }
  }

  lemma SlotsInHeap(f: FfiState, c: CameraState)
    requires c.handle in f.cameras && CameraFrames(f, c)
    ensures forall s <- SlotsOf(c) :: s in f.frames && f.frames[s] in f.heap && f.frames[s] in f.sdk.frames
  {
    forall s <- SlotsOf(c)
      ensures s in f.frames && f.frames[s] in f.heap && f.frames[s] in f.sdk.frames
    {
      var i :| 0 <= i < |SlotsOf(c)| && SlotsOf(c)[i] == s;
      assert SlotOk(f, c, i);
    }
  }

  /** No slot belongs to two cameras. */
  predicate SlotsApart(cams: map<Id, CameraState>) {
    forall h <- cams, k <- cams :: h != k ==>
      forall s <- SlotsOf(cams[h]), s' <- SlotsOf(cams[k]) :: s != s'
  }

  lemma BoxAdded(f: FfiState, cams: map<Id, CameraState>, h: Id, c': CameraState, id: Id, p: Addr)
    requires FramesOk(f, cams) && h in cams && forall k <- cams :: cams[k].handle == k
    requires id !in f.frames && p !in f.heap
    requires c'.handle == h && SlotsOf(c') == SlotsOf(cams[h]) + [id] && c'.given == cams[h].given
    requires !Draining(cams[h]) && !Draining(c') && QueuedNow(cams[h]) == QueuedNow(c') == 0
    ensures FramesOk(WithBox(f, id, p, f.cameras[h]), cams[h := c'])
  {
    var c, f' := cams[h], WithBox(f, id, p, f.cameras[h]);
    AnnounceKeepsBoxes(f.frames, f.heap, id, p);
    assert f'.sdk.frames.Keys == f'.heap.Keys;
    forall i | 0 <= i < |SlotsOf(c')|
      ensures SlotOk(f', c', i)
    {
      if i < |SlotsOf(c)| {
        assert SlotOk(f, c, i);
      }
    }
    forall k | k in cams && k != h
      ensures CameraFrames(f', cams[k])
    {
      SlotsInHeap(f, cams[k]);
      assert Untouched(f, f', cams[k]);
      UntouchedKeep(f, f', cams[k]);
    }
  }

  lemma AnnounceAdvances(c: CameraState, r: Reply)
    requires Busy(c) && Shaped(c) && Next(c).AnnounceFrame?
    ensures var c' := Advance(c, r);
      && c'.handle == c.handle && c'.given == c.given
      && SlotsOf(c') == SlotsOf(c) + (if r.Got? then [r.id] else [])
      && !Draining(c) && !Draining(c') && QueuedNow(c) == QueuedNow(c') == 0
  {
  }

  lemma AnnounceKeepsFrames(f: FfiState, cams: map<Id, CameraState>, h: Id, a: Answer)
    requires FramesOk(f, cams) && h in cams && forall k <- cams :: cams[k].handle == k
    requires Busy(cams[h]) && Shaped(cams[h]) && Next(cams[h]).AnnounceFrame?
    requires IdAfter(f.draws) !in f.frames && a.addr !in f.heap
    ensures var (f', r) := Serve(f, Next(cams[h]), a);
      FramesOk(f', cams[h := Advance(cams[h], r)])
  {
    var c := cams[h];
    var r := Serve(f, Next(c), a).1;
    AnnounceServed(f, h, Next(c).size, a);
    AnnounceAdvances(c, r);
    if a.fail.Some? {
      SameFramesKeep(f, c, f, Advance(c, r));
    } else {
      BoxAdded(f, cams, h, Advance(c, r), IdAfter(f.draws), a.addr);
    }
  }

  // --- Queueing ---------------------------------------------------------

  /** A frame about to be queued is neither queued nor in flight, so swapping
      its callback cannot be seen by a running trampoline. */
  lemma QueueTargetIsIdle(f: FfiState, c: CameraState)
    requires c.handle in f.cameras && CameraFrames(f, c)
    requires Busy(c) && Shaped(c) && Next(c).QueueFrame?
    ensures Next(c).slot in f.frames && f.frames[Next(c).slot] in f.sdk.frames
    ensures f.sdk.frames[f.frames[Next(c).slot]].status == Announced
  {
    assert SlotOk(f, c, c.pc.stage.queued);
  }

  lemma QueueKeepsBoxes(frames: map<Id, Addr>, heap: map<Addr, Context>, p: Addr, g: FrameCallback)
    requires BoxesOk(frames, heap) && p in heap
    ensures BoxesOk(frames, heap[p := Context(g, Some(p))])
  {
    assert heap[p := Context(g, Some(p))].Keys == heap.Keys;
  }

  lemma QueuedSlots(f: FfiState, c: CameraState, f': FfiState, c': CameraState, k: nat, p: Addr, ok: bool)
    requires c.handle in f.cameras && CameraFrames(f, c) && Distinct(SlotsOf(c))
    requires BoxesOk(f.frames, f.heap)
    requires k < |SlotsOf(c)| && SlotsOf(c)[k] in f.frames && f.frames[SlotsOf(c)[k]] == p
    requires !Draining(c) && QueuedNow(c) == k
    requires SlotsOf(c') == SlotsOf(c) && c'.handle == c.handle && c'.given == c.given
    requires !Draining(c') && QueuedNow(c') == if ok then k + 1 else k
    requires f'.cameras == f.cameras && f'.frames == f.frames
    requires f'.heap == f.heap[p := Context(User(c.given), Some(p))]
    requires f'.sdk.frames == if ok then f.sdk.frames[p := SdkFrame(f.cameras[c.handle], Queued)] else f.sdk.frames
    ensures CameraFrames(f', c')
  {
    forall i | 0 <= i < |SlotsOf(c')|
      ensures SlotOk(f', c', i)
    {
      assert SlotOk(f, c, i);
      if i != k {
        assert SlotsOf(c)[i] != SlotsOf(c)[k];
        assert f.frames[SlotsOf(c)[i]] != p;
      }
    }
  }

  lemma QueueServed(f: FfiState, c: CameraState, a: Answer)
    requires c.handle in f.cameras && Busy(c) && Shaped(c) && c.pc.Within? && c.pc.stage.Queueing?
    requires Next(c).slot in f.frames
    requires Next(c).cb in f.frameCallbacks && f.frameCallbacks[Next(c).cb] == c.given
    ensures var (f', r) := Serve(f, Next(c), a);
      var p := f.frames[Next(c).slot];
      && f'.cameras == f.cameras && f'.frames == f.frames
      && f'.heap == f.heap[p := Context(User(c.given), Some(p))]
      && f'.sdk.frames == (if a.fail.None? then f.sdk.frames[p := SdkFrame(f.cameras[c.handle], Queued)]
                           else f.sdk.frames)
      && (r == Done <==> a.fail.None?) && (a.fail.Some? ==> r == Failed(a.fail.value))
  {
  }

  lemma QueueAdvances(c: CameraState, r: Reply)
    requires Busy(c) && Shaped(c) && c.pc.Within? && c.pc.stage.Queueing?
    ensures var c' := Advance(c, r);
      && SlotsOf(c') == SlotsOf(c) && c'.handle == c.handle && c'.given == c.given
      && QueuedNow(c) == c.pc.stage.queued < |SlotsOf(c)| && !Draining(c) && !Draining(c')
      && QueuedNow(c') == if r.Done? then c.pc.stage.queued + 1 else c.pc.stage.queued
  {
  }

  lemma QueueKeepsFrames(f: FfiState, cams: map<Id, CameraState>, h: Id, a: Answer)
    requires FramesOk(f, cams) && h in cams && forall k <- cams :: cams[k].handle == k
    requires Busy(cams[h]) && Shaped(cams[h]) && Next(cams[h]).QueueFrame?
    requires Distinct(SlotsOf(cams[h])) && SlotsApart(cams)
    requires Next(cams[h]).cb in f.frameCallbacks && f.frameCallbacks[Next(cams[h]).cb] == cams[h].given
    ensures var (f', r) := Serve(f, Next(cams[h]), a);
      FramesOk(f', cams[h := Advance(cams[h], r)])
  {
    var c := cams[h];
    var k := c.pc.stage.queued;
    QueueTargetIsIdle(f, c);
    SlotsInHeap(f, c);
    QueueServed(f, c, a);
    var (f', r) := Serve(f, Next(c), a);
    QueueAdvances(c, r);
    var p := f.frames[SlotsOf(c)[k]];
    QueueKeepsBoxes(f.frames, f.heap, p, User(c.given));
    QueuedSlots(f, c, f', Advance(c, r), k, p, a.fail.None?);
    assert f'.sdk.frames.Keys == f'.heap.Keys;
    forall j | j in cams && j != h
      ensures CameraFrames(f', cams[j])
    {
      SlotsInHeap(f, cams[j]);
      forall s <- SlotsOf(cams[j])
        ensures f.frames[s] != p
      {
        assert SlotsOf(c)[k] in SlotsOf(c);
        assert s != SlotsOf(c)[k];
      }
      assert Untouched(f, f', cams[j]);
      UntouchedKeep(f, f', cams[j]);
    }
  }

  // --- Flushing and revoking --------------------------------------------

  lemma FlushServed(f: FfiState, h: Id, a: Answer)
    requires h in f.cameras
    ensures Serve(f, CaptureQueueFlush(h), a).0
         == f.(sdk := f.sdk.(frames := if a.fail.Some? then f.sdk.frames else AfterFlush(f.sdk.frames, f.cameras[h])))
  {
  }

  lemma FlushKeepsFrames(f: FfiState, cams: map<Id, CameraState>, h: Id, a: Answer)
    requires FramesOk(f, cams) && h in cams && forall k <- cams :: cams[k].handle == k
    requires Busy(cams[h]) && Shaped(cams[h]) && Next(cams[h]).CaptureQueueFlush?
    ensures var (f', r) := Serve(f, Next(cams[h]), a);
      FramesOk(f', cams[h := Advance(cams[h], r)])
  {
    var c := cams[h];
    var raw := f.cameras[h];
    var (f', r) := Serve(f, Next(c), a);
    var c' := Advance(c, r);
    FlushServed(f, h, a);
    assert f'.sdk.frames.Keys == f.sdk.frames.Keys;
    forall i | 0 <= i < |SlotsOf(c')|
      ensures SlotOk(f', c', i)
    {
      assert SlotOk(f, c, i);
    }
    forall k | k in cams && k != h
      ensures CameraFrames(f', cams[k])
    {
      forall i | 0 <= i < |SlotsOf(cams[k])|
        ensures SlotOk(f', cams[k], i)
      {
        assert SlotOk(f, cams[k], i);
        assert f.cameras[k] != raw;
      }
    }
  }

  /** When only one camera holds slots, every frame the SDK holds is its own. */
  lemma AllFramesMine(f: FfiState, cams: map<Id, CameraState>, h: Id)
    requires FramesOk(f, cams) && h in cams && cams[h].handle == h
    requires forall s <- f.frames :: s in SlotsOf(cams[h])
    ensures forall p <- f.sdk.frames :: f.sdk.frames[p].camera == f.cameras[h]
  {
    forall p <- f.sdk.frames
      ensures f.sdk.frames[p].camera == f.cameras[h]
    {
      assert p in f.frames.Values;
      var s :| s in f.frames && f.frames[s] == p;
      var i :| 0 <= i < |SlotsOf(cams[h])| && SlotsOf(cams[h])[i] == s;
      assert SlotOk(f, cams[h], i);
    }
  }

  lemma RevokeServed(f: FfiState, h: Id, a: Answer)
    requires h in f.cameras && f.frames.Values == f.heap.Keys
    ensures var f' := Serve(f, FrameRevokeAll(h), a).0;
      && f'.cameras == f.cameras && f'.frames == map[] && f'.heap == map[]
      && f'.sdk.frames == AfterRevoke(f.sdk.frames, f.cameras[h])
  {
    assert f.heap - f.frames.Values == map[];
  }

  lemma RevokeKeepsFrames(f: FfiState, cams: map<Id, CameraState>, h: Id, a: Answer)
    requires FramesOk(f, cams) && h in cams && forall k <- cams :: cams[k].handle == k
    requires Busy(cams[h]) && Shaped(cams[h]) && Next(cams[h]).FrameRevokeAll?
    requires forall s <- f.frames :: s in SlotsOf(cams[h])
    requires Alone(cams, h)
    ensures var (f', r) := Serve(f, Next(cams[h]), a);
      FramesOk(f', cams[h := Advance(cams[h], r)])
  {
    var c := cams[h];
    var (f', r) := Serve(f, Next(c), a);
    RevokeServed(f, h, a);
    AllFramesMine(f, cams, h);
    assert f'.sdk.frames == map[];
    assert SlotsOf(Advance(c, r)) == [];
  }

  // --- Opening, closing, entering a method ------------------------------

  lemma OpenKeepsFrames(f: FfiState, cams: map<Id, CameraState>, name: string, a: Answer)
    requires FramesOk(f, cams) && '\0' !in name && a.raw !in f.cameras.Values
    requires IdAfter(f.draws) !in f.cameras && forall k <- cams :: cams[k].handle == k
    ensures var (f', r) := Serve(f, OpenCamera(name), a);
      FramesOk(f', if r.Got? then cams[r.id := Opened(r.id)] else cams)
  {
    var (f', r) := Serve(f, OpenCamera(name), a);
    QuietCallKeepsFrames(f, OpenCamera(name), a);
    assert f'.cameras == if r.Got? then f.cameras[r.id := a.raw] else f.cameras;
    forall k <- cams
      ensures k in f'.cameras && CameraFrames(f', cams[k])
    {
      SameFramesElsewhere(f, f', cams[k]);
    }
  }

  lemma SameFramesElsewhere(f: FfiState, g: FfiState, c: CameraState)
    requires c.handle in f.cameras && CameraFrames(f, c) && SameFrames(f, g)
    requires c.handle in g.cameras && g.cameras[c.handle] == f.cameras[c.handle]
    ensures CameraFrames(g, c)
  {
    SlotsInHeap(f, c);
    assert Untouched(f, g, c);
    UntouchedKeep(f, g, c);
  }

  lemma CloseKeepsFrames(f: FfiState, cams: map<Id, CameraState>, h: Id, a: Answer)
    requires FramesOk(f, cams) && h in cams && forall k <- cams :: cams[k].handle == k
    ensures FramesOk(Serve(f, CloseCamera(h), a).0, cams - {h})
  {
    var f' := Serve(f, CloseCamera(h), a).0;
    QuietCallKeepsFrames(f, CloseCamera(h), a);
    assert f'.cameras == f.cameras - {h};
    forall k | k in cams && k != h
      ensures k in f'.cameras && CameraFrames(f', cams[k])
    {
      SameFramesElsewhere(f, f', cams[k]);
    }
  }

  lemma EnteringCarries(c: CameraState, buffers: nat, closure: Closure)
    requires c.pc.Ready? && Shaped(c)
    ensures Carries(c, BeginStart(c, buffers, closure)) && Carries(c, BeginStop(c)) && Carries(c, BeginDrop(c))
  {
    BeginHoldsSame(c, buffers, closure);
  }

  lemma CarriedKeepsFrames(f: FfiState, cams: map<Id, CameraState>, h: Id, c': CameraState)
    requires FramesOk(f, cams) && h in cams && Carries(cams[h], c')
    ensures FramesOk(f, cams[h := c'])
  {
    SameFramesKeep(f, cams[h], f, c');
  }

  lemma EnterKeepsFrames(f: FfiState, d: State, e: Event)
    requires FramesOk(f, d.cams) && AllShaped(d.cams)
    ensures FramesOk(f, Enter(d, e).cams)
  {
    if !e.Invoke? && !e.Unsubscribe? && e.h in d.cams && d.cams[e.h].pc.Ready? {
      var c := d.cams[e.h];
      EnteringCarries(c, if e.Start? then e.buffers else 0, if e.Start? then e.closure else 0);
      match e {
        case Start(h, buffers, closure) => CarriedKeepsFrames(f, d.cams, h, BeginStart(c, buffers, closure));
        case Stop(h) => CarriedKeepsFrames(f, d.cams, h, BeginStop(c));
        case Drop(h) => CarriedKeepsFrames(f, d.cams, h, BeginDrop(c));
      }
    }
  }

  // --- One step of a run ------------------------------------------------

  /** The state of an FFI run next to the fake's tables in the same run. */
  predicate Coupled(t: Fake.Tables, w: World) {
    TablesMatch(t, w.d) && Simulation.Twins(t, w.f) && FramesOk(w.f, w.d.cams)
  }

  lemma NextIdIsNew(t: Fake.Tables, w: World)
    requires KeysOk(t) && Simulation.Twins(t, w.f) && t.draws < U64
    ensures IdAfter(w.f.draws) !in w.f.frames && IdAfter(w.f.draws) !in w.f.cameras
  {
    if t.draws + 1 < U64 {
      UnwrappedId(t.draws);
      assert t.draws + 1 !in t.announced.Keys && t.draws + 1 !in t.cameras.Keys;
    } else {
      assert IdAfter(t.draws) == 0;
      assert 0 !in t.announced.Keys && 0 !in t.cameras.Keys;
    }
  }

  lemma SlotsAreApart(announced: map<Id, Id>, cams: map<Id, CameraState>)
    requires SlotsOk(announced, Slots(cams))
    ensures SlotsApart(cams)
    ensures forall h <- cams :: Distinct(SlotsOf(cams[h]))
  {
    forall h <- cams
      ensures Distinct(SlotsOf(cams[h]))
      ensures forall s <- SlotsOf(cams[h]) :: s in announced && announced[s] == h
    {
      assert Slots(cams)[h] == SlotsOf(cams[h]);
    }
  }

  lemma OnlyMySlots(announced: map<Id, Id>, cams: map<Id, CameraState>, h: Id)
    requires SlotsOk(announced, Slots(cams)) && h in cams
    requires Alone(cams, h)
    ensures forall s <- announced :: s in SlotsOf(cams[h])
  {
    forall s <- announced
      ensures s in SlotsOf(cams[h])
    {
      assert s in Slots(cams)[announced[s]];
    }
  }

  /** The slot facts a camera's call relies on. */
  predicate Sound(f: FfiState, cams: map<Id, CameraState>, h: Id)
    requires h in cams
  {
    && FramesOk(f, cams) && SlotsApart(cams) && Distinct(SlotsOf(cams[h]))
    && (forall k <- cams :: cams[k].handle == k)
    && Busy(cams[h]) && Shaped(cams[h])
    && IdAfter(f.draws) !in f.frames
    && (Next(cams[h]).QueueFrame? ==>
          Next(cams[h]).cb in f.frameCallbacks && f.frameCallbacks[Next(cams[h]).cb] == cams[h].given)
  }

  lemma CameraCallKeepsFrames(f: FfiState, cams: map<Id, CameraState>, h: Id, a: Answer)
    requires h in cams && Sound(f, cams, h)
    requires Next(cams[h]).AnnounceFrame? ==> a.addr !in f.heap
    requires Next(cams[h]).FrameRevokeAll? ==>
      Alone(cams, h) && (forall s <- f.frames :: s in SlotsOf(cams[h]))
    ensures var (f', r) := Serve(f, Next(cams[h]), a);
      FramesOk(f', Put(cams, h, Advance(cams[h], r)))
  {
    var c := cams[h];
    if c.pc.Closing? {
      CloseKeepsFrames(f, cams, h, a);
    } else {
      OnlyClosingDrops(c, Serve(f, Next(c), a).1);
      match Next(c) {
        case AnnounceFrame(_, _) => AnnounceKeepsFrames(f, cams, h, a);
        case QueueFrame(_, _, _) => QueueKeepsFrames(f, cams, h, a);
        case CaptureQueueFlush(_) => FlushKeepsFrames(f, cams, h, a);
        case FrameRevokeAll(_) => RevokeKeepsFrames(f, cams, h, a);
        case _ => QuietStepKeepsFrames(f, cams, h, a);
      }
    }
  }

  lemma OnlyClosingDrops(c: CameraState, r: Reply)
    requires Busy(c)
    ensures Advance(c, r).pc.Dropped? <==> c.pc.Closing?
  {
  }

  lemma CoupledIsSound(t: Fake.Tables, w: World, h: Id)
    requires Coupled(t, w) && CanCall(w.d, Cam(h)) && w.f.draws < U64
    ensures Sound(w.f, w.d.cams, h)
  {
    NextIdIsNew(t, w);
    SlotsAreApart(t.announced, w.d.cams);
    TablesHold(t, w.d, h);
    QueueUsesOwnCallback(w.d.cams[h]);
  }

  lemma QueueUsesOwnCallback(c: CameraState)
    requires Busy(c) && Shaped(c)
    ensures Next(c).QueueFrame? ==> CallbackOf(c) == Some(Next(c).cb)
  {
  }

  lemma AllBoxesMine(t: Fake.Tables, w: World, h: Id)
    requires Coupled(t, w) && h in w.d.cams && Alone(w.d.cams, h)
    ensures forall s <- w.f.frames :: s in SlotsOf(w.d.cams[h])
  {
    OnlyMySlots(t.announced, w.d.cams, h);
    forall s <- w.f.frames
      ensures s in SlotsOf(w.d.cams[h])
    {
      assert s in t.announced.Keys;
    }
  }

  lemma CameraStepKeepsFrames(t: Fake.Tables, w: World, h: Id, a: Answer)
    requires Coupled(t, w) && CanCall(w.d, Cam(h)) && w.f.draws < U64
    requires Next(w.d.cams[h]).AnnounceFrame? ==> a.addr !in w.f.heap
    requires Next(w.d.cams[h]).FrameRevokeAll? ==> Alone(w.d.cams, h)
    ensures var (f', r) := Serve(w.f, Next(w.d.cams[h]), a);
      FramesOk(f', Put(w.d.cams, h, Advance(w.d.cams[h], r)))
  {
    CoupledIsSound(t, w, h);
    if Next(w.d.cams[h]).FrameRevokeAll? {
      AllBoxesMine(t, w, h);
    }
    CameraCallKeepsFrames(w.f, w.d.cams, h, a);
  }

  lemma CallKeepsFrames(t: Fake.Tables, w: World, who: Actor, a: Answer)
    requires Coupled(t, w) && w.f.draws < U64 && CanCall(w.d, who)
    requires Allowed(w.f, CallOf(w.d, who), a)
    requires who.Cam? && CallOf(w.d, who).FrameRevokeAll? ==> Alone(w.d.cams, who.h)
    ensures var w' := Take(w, Domain(Invoke(who, a)));
      FramesOk(w'.f, w'.d.cams)
  {
    NextIdIsNew(t, w);
    match who {
      case Cam(h) => CameraStepKeepsFrames(t, w, h, a);
      case Opener(name) => OpenKeepsFrames(w.f, w.d.cams, name, a);
      case _ => SubscriberKeepsFrames(w, who, a);
    }
  }

  lemma StepKeepsFrames(t: Fake.Tables, w: World, x: Step)
    requires Coupled(t, w) && w.f.draws < U64
    requires Admissible(w, x) && RevokesAlone(w, x)
    ensures FramesOk(Take(w, x).f, Take(w, x).d.cams)
  {
    if !x.Domain? {
      TrampolinesKeepFrames(w, x);
    } else if !x.e.Invoke? {
      EnterKeepsFrames(w.f, w.d, x.e);
    } else if CanCall(w.d, x.e.who) {
      CallKeepsFrames(t, w, x.e.who, x.e.answer);
    }
  }

  lemma SubscriberKeepsFrames(w: World, who: Actor, a: Answer)
    requires FramesOk(w.f, w.d.cams) && CanCall(w.d, who) && (who.Registrar? || who.Sub?)
    requires forall k <- w.d.cams :: w.d.cams[k].handle == k
    ensures var w' := Take(w, Domain(Invoke(who, a)));
      FramesOk(w'.f, w'.d.cams)
  {
    var (f', r) := Serve(w.f, CallOf(w.d, who), a);
    QuietCallKeepsFrames(w.f, CallOf(w.d, who), a);
    forall k <- w.d.cams
      ensures CameraFrames(f', w.d.cams[k])
    {
      UntouchedKeep(w.f, f', w.d.cams[k]);
    }
  }
}
