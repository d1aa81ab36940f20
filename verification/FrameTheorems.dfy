/** Whole-run results about frames and callbacks of the FFI adapter. */
module FrameTheorems {
  import opened Port
  import opened CameraProgram
  import Fake = FakeModel
  import opened Domain
  import opened TableInvariant
  import Simulation
  import FakeWorld
  import opened FfiModel
  import opened FfiWorld
  import opened FrameLiveness

  /** The fake's tables in the same run. */
  function FakeTables(xs: seq<Step>): Fake.Tables {
    FakeWorld.Run(Simulation.Erase(xs)).t
  }

  lemma ProperPrefix(xs: seq<Step>)
    requires Proper(xs) && xs != []
    ensures Proper(xs[..|xs| - 1])
  {
    Simulation.FfiDraws(Run(xs[..|xs| - 1]), xs[|xs| - 1]);
  }

  lemma {:induction false} RunsStayCoupled(xs: seq<Step>)
    requires Proper(xs)
    ensures Coupled(FakeTables(xs), Run(xs))
  {
    Simulation.FfiSimulatesFake(xs);
    if xs != [] {
      var front := xs[..|xs| - 1];
      ProperPrefix(xs);
      RunsStayCoupled(front);
      StepKeepsFrames(FakeTables(front), Run(front), xs[|xs| - 1]);
    }
  }

  lemma ReachableIsCoupled(w: World) returns (t: Fake.Tables)
    requires Reachable(w)
    ensures Coupled(t, w) && w.f.draws < U64
  {
    var xs :| Proper(xs) && Run(xs) == w;
    RunsStayCoupled(xs);
    t := FakeTables(xs);
  }

  // --- Pointer liveness -------------------------------------------------

  /** `p` is the box of a slot of the open camera `h`. */
  predicate BoxOf(w: World, h: Id, p: Addr) {
    h in w.d.cams && exists s <- SlotsOf(w.d.cams[h]) :: s in w.f.frames && w.f.frames[s] == p
  }

  /** Each frame pointer the SDK may still dereference is a live box, owned by
      a slot of an open camera, and its `context[0]` leads back to it. */
  predicate PointersLive(w: World) {
    forall p <- w.f.sdk.frames ::
      Reaches(w.f, p) && w.f.heap[p].context0 == Some(p) && exists h <- w.d.cams :: BoxOf(w, h, p)
  }

  /** Pointer liveness, at every point of every run in which no camera revokes
      while another holds slots, hence also on every failed start and on a drop
      during capture. */
  lemma PointersAreLive(w: World)
    requires Reachable(w)
    ensures PointersLive(w)
  {
    var t := ReachableIsCoupled(w);
    CoupledPointersLive(t, w);
  }

  lemma CoupledPointersLive(t: Fake.Tables, w: World)
    requires Coupled(t, w)
    ensures PointersLive(w)
  {
    forall p <- w.f.sdk.frames
      ensures Reaches(w.f, p) && w.f.heap[p].context0 == Some(p) && exists h <- w.d.cams :: BoxOf(w, h, p)
    {
      var h, i := OwnerOf(t, w, p);
      assert SlotsOf(w.d.cams[h])[i] in SlotsOf(w.d.cams[h]);
      assert BoxOf(w, h, p);
    }
  }

  lemma OwnerOf(t: Fake.Tables, w: World, p: Addr) returns (h: Id, i: nat)
    requires Coupled(t, w) && p in w.f.sdk.frames
    ensures h in w.d.cams && i < |SlotsOf(w.d.cams[h])| && SlotOk(w.f, w.d.cams[h], i)
    ensures w.f.frames[SlotsOf(w.d.cams[h])[i]] == p
  {
    assert p in w.f.frames.Values;
    var s :| s in w.f.frames && w.f.frames[s] == p;
    assert s in t.announced.Keys;
    h := t.announced[s];
    assert s in Slots(w.d.cams)[h];
    i :| 0 <= i < |SlotsOf(w.d.cams[h])| && SlotsOf(w.d.cams[h])[i] == s;
    assert CameraFrames(w.f, w.d.cams[h]);
  }

  /** The frame `p` belongs to camera `h` and dispatches to the closure given
      to the latest `start_capture` of that camera. */
  predicate DispatchesTo(w: World, p: Addr, h: Id)
    requires p in w.f.sdk.frames
  {
    && h in w.d.cams && h in w.f.cameras && w.f.sdk.frames[p].camera == w.f.cameras[h]
    && p in w.f.heap && w.f.heap[p].callback == User(w.d.cams[h].given)
  }

  predicate AllDispatchToGiven(w: World) {
    forall p <- w.f.sdk.frames ::
      !w.f.sdk.frames[p].status.Announced? ==> exists h <- w.d.cams :: DispatchesTo(w, p, h)
  }

  /** Every callback a trampoline could invoke, on any frame that was queued
      and not yet revoked, is the closure given to the latest `start_capture`
      of the camera the frame belongs to, never the announce-time placeholder. */
  lemma DispatchesToGiven(w: World)
    requires Reachable(w)
    ensures AllDispatchToGiven(w)
  {
    var t := ReachableIsCoupled(w);
    CoupledDispatches(t, w);
  }

  lemma CoupledDispatches(t: Fake.Tables, w: World)
    requires Coupled(t, w)
    ensures AllDispatchToGiven(w)
  {
    forall p <- w.f.sdk.frames | !w.f.sdk.frames[p].status.Announced?
      ensures exists h <- w.d.cams :: DispatchesTo(w, p, h)
    {
      var h, i := OwnerOf(t, w, p);
      assert DispatchesTo(w, p, h);
    }
  }

  /** Whenever a camera is about to queue a frame, and so to swap its context's
      callback, the frame is neither queued nor in flight. */
  predicate SwapsIdleOnly(w: World) {
    forall h <- w.d.cams :: CanCall(w.d, Cam(h)) && Next(w.d.cams[h]).QueueFrame? ==>
      var slot := Next(w.d.cams[h]).slot;
      && slot in w.f.frames && w.f.frames[slot] in w.f.sdk.frames
      && w.f.sdk.frames[w.f.frames[slot]].status == Announced
  }

  lemma NoSwapUnderTheSdk(w: World)
    requires Reachable(w)
    ensures SwapsIdleOnly(w)
  {
    var t := ReachableIsCoupled(w);
    CoupledSwapsIdle(t, w);
  }

  lemma CoupledSwapsIdle(t: Fake.Tables, w: World)
    requires Coupled(t, w)
    ensures SwapsIdleOnly(w)
  {
    forall h <- w.d.cams | CanCall(w.d, Cam(h)) && Next(w.d.cams[h]).QueueFrame?
      ensures var slot := Next(w.d.cams[h]).slot;
        && slot in w.f.frames && w.f.frames[slot] in w.f.sdk.frames
        && w.f.sdk.frames[w.f.frames[slot]].status == Announced
    {
      QueueTargetIsIdle(w.f, w.d.cams[h]);
    }
  }

  predicate NothingHeld(f: FfiState) {
    && f.frames == map[] && f.heap == map[] && f.sdk.frames == map[]
    && f.cameras == map[] && f.frameCallbacks == map[]
  }

  /** Once every camera is dropped no box and no SDK pointer is left. */
  lemma NoBoxesLeft(w: World)
    requires Reachable(w) && w.d.cams == map[]
    ensures NothingHeld(w.f)
  {
    var t := ReachableIsCoupled(w);
    NobodyHoldsNothing(t, w);
  }

  lemma NobodyHoldsNothing(t: Fake.Tables, w: World)
    requires Coupled(t, w) && w.d.cams == map[]
    ensures NothingHeld(w.f)
  {
    assert Slots(w.d.cams) == map[] && Callbacks(w.d.cams) == map[];
    assert t.announced == map[];
    assert w.f.frames.Keys == {};
    assert w.f.frames == map[];
    assert w.f.frames.Values == {};
    assert w.f.heap.Keys == {};
  }

  lemma RevokingAloneIsSafe(t: Fake.Tables, w: World, h: Id, a: Answer)
    requires Coupled(t, w) && h in w.d.cams
    requires Alone(w.d.cams, h)
    ensures Serve(w.f, FrameRevokeAll(h), a).0.sdk.frames == map[]
  {
    RevokeServed(w.f, h, a);
    AllBoxesMine(t, w, h);
    AllFramesMine(w.f, w.d.cams, h);
  }

  lemma RevokingDanglesOthers(f: FfiState, cams: map<Id, CameraState>, h: Id, k: Id, a: Answer) returns (p: Addr)
    requires FramesOk(f, cams) && h in cams && k in cams && k != h
    requires cams[h].handle == h && cams[k].handle == k && SlotsOf(cams[k]) != []
    ensures var f' := Serve(f, FrameRevokeAll(h), a).0;
      p in f'.sdk.frames && p !in f'.heap
  {
    RevokeServed(f, h, a);
    assert SlotOk(f, cams[k], 0);
    p := f.frames[SlotsOf(cams[k])[0]];
    assert f.cameras[k] != f.cameras[h];
  }

  predicate HeldPointersLive(f: FfiState) {
    forall p <- f.sdk.frames :: p in f.heap
  }

  /** Why the hypothesis is needed: wherever a run has got to, a camera's
      `frame_revoke_all` leaves every pointer the SDK holds live exactly when no
      other camera has a slot. */
  lemma RevokeLeavesLivePointersIff(w: World, h: Id, a: Answer)
    requires Reachable(w) && h in w.d.cams
    ensures HeldPointersLive(Serve(w.f, FrameRevokeAll(h), a).0) <==> Alone(w.d.cams, h)
  {
    var t := ReachableIsCoupled(w);
    if Alone(w.d.cams, h) {
      RevokingAloneIsSafe(t, w, h, a);
    } else {
      var k :| k in w.d.cams && k != h && SlotsOf(w.d.cams[k]) != [];
      var p := RevokingDanglesOthers(w.f, w.d.cams, h, k, a);
    }
  }

  // --- Circulation ------------------------------------------------------

  function QueuedFrames(f: FfiState, raw: Addr): set<Addr> {
    set p | p in f.sdk.frames && f.sdk.frames[p].camera == raw && f.sdk.frames[p].status.Queued?
  }

  function FlyingFrames(f: FfiState, raw: Addr): set<Addr> {
    set p | p in f.sdk.frames && f.sdk.frames[p].camera == raw && InFlight(f.sdk.frames[p].status)
  }

  function RetiredFrames(f: FfiState, raw: Addr): set<Addr> {
    set p | p in f.sdk.frames && f.sdk.frames[p].camera == raw && f.sdk.frames[p].status.Retired?
  }

  function Boxes(frames: map<Id, Addr>, slots: seq<Id>): set<Addr> {
    set s | s in slots && s in frames :: frames[s]
  }

  lemma {:induction false} BoxCount(frames: map<Id, Addr>, slots: seq<Id>)
    requires Distinct(slots) && (forall s <- slots :: s in frames)
    requires forall s <- frames, s' <- frames :: frames[s] == frames[s'] ==> s == s'
    ensures |Boxes(frames, slots)| == |slots|
  {
    if slots != [] {
      var front, last := slots[..|slots| - 1], slots[|slots| - 1];
      BoxCount(frames, front);
      assert last !in front;
      assert slots == front + [last];
      assert Boxes(frames, slots) == Boxes(frames, front) + {frames[last]};
      assert frames[last] !in Boxes(frames, front);
    }
  }

  /** A frame the SDK holds for a camera is the box of one of its slots. */
  lemma OwnFrame(t: Fake.Tables, w: World, h: Id, p: Addr) returns (i: nat)
    requires Coupled(t, w) && h in w.d.cams && h in w.f.cameras
    requires p in w.f.sdk.frames && w.f.sdk.frames[p].camera == w.f.cameras[h]
    ensures i < |SlotsOf(w.d.cams[h])| && SlotOk(w.f, w.d.cams[h], i)
    ensures w.f.frames[SlotsOf(w.d.cams[h])[i]] == p
  {
    var k;
    k, i := OwnerOf(t, w, p);
    assert w.f.cameras[k] == w.f.cameras[h];
  }

  /** The frames out of the announced state, as the SDK lists them. */
  function OutFrames(f: FfiState, raw: Addr): set<Addr> {
    set p | p in f.sdk.frames && f.sdk.frames[p].camera == raw && !f.sdk.frames[p].status.Announced?
  }

  lemma OutFramesSplit(f: FfiState, raw: Addr)
    ensures |OutFrames(f, raw)|
         == |QueuedFrames(f, raw)| + |FlyingFrames(f, raw)| + |RetiredFrames(f, raw)|
  {
    var q, y, r := QueuedFrames(f, raw), FlyingFrames(f, raw), RetiredFrames(f, raw);
    assert q !! y && (q + y) !! r;
    assert OutFrames(f, raw) == q + y + r;
  }

  lemma OutFrameIsQueuedSlot(t: Fake.Tables, w: World, h: Id, k: nat, p: Addr)
    requires Coupled(t, w) && h in w.d.cams && h in w.f.cameras
    requires LiveOf(w.d.cams[h]) == Some(k) && k <= |SlotsOf(w.d.cams[h])|
    requires p in OutFrames(w.f, w.f.cameras[h])
    ensures p in Boxes(w.f.frames, SlotsOf(w.d.cams[h])[..k])
  {
    var i := OwnFrame(t, w, h, p);
    OutSlotIsQueued(w.f, w.d.cams[h], k, i);
  }

  lemma OutSlotIsQueued(f: FfiState, c: CameraState, k: nat, i: nat)
    requires c.handle in f.cameras && i < |SlotsOf(c)| && SlotOk(f, c, i)
    requires LiveOf(c) == Some(k) && k <= |SlotsOf(c)|
    requires !f.sdk.frames[f.frames[SlotsOf(c)[i]]].status.Announced?
    ensures f.frames[SlotsOf(c)[i]] in Boxes(f.frames, SlotsOf(c)[..k])
  {
    assert !Draining(c) && QueuedNow(c) == k;
    assert SlotsOf(c)[..k][i] == SlotsOf(c)[i];
  }

  lemma QueuedSlotIsOut(f: FfiState, c: CameraState, k: nat, p: Addr)
    requires c.handle in f.cameras && CameraFrames(f, c)
    requires LiveOf(c) == Some(k) && k <= |SlotsOf(c)|
    requires p in Boxes(f.frames, SlotsOf(c)[..k])
    ensures p in OutFrames(f, f.cameras[c.handle])
  {
    assert !Draining(c) && QueuedNow(c) == k;
    var s :| s in SlotsOf(c)[..k] && s in f.frames && f.frames[s] == p;
    var i :| 0 <= i < k && SlotsOf(c)[i] == s;
    assert SlotOk(f, c, i);
  }

  lemma OutFramesInBoxes(t: Fake.Tables, w: World, h: Id, k: nat)
    requires Coupled(t, w) && h in w.d.cams && h in w.f.cameras && w.d.cams[h].handle == h
    requires LiveOf(w.d.cams[h]) == Some(k) && k <= |SlotsOf(w.d.cams[h])|
    ensures OutFrames(w.f, w.f.cameras[h]) <= Boxes(w.f.frames, SlotsOf(w.d.cams[h])[..k])
  {
    forall p <- OutFrames(w.f, w.f.cameras[h])
      ensures p in Boxes(w.f.frames, SlotsOf(w.d.cams[h])[..k])
    {
      OutFrameIsQueuedSlot(t, w, h, k, p);
    }
  }

  lemma BoxesInOutFrames(f: FfiState, c: CameraState, k: nat)
    requires c.handle in f.cameras && CameraFrames(f, c)
    requires LiveOf(c) == Some(k) && k <= |SlotsOf(c)|
    ensures Boxes(f.frames, SlotsOf(c)[..k]) <= OutFrames(f, f.cameras[c.handle])
  {
    forall p <- Boxes(f.frames, SlotsOf(c)[..k])
      ensures p in OutFrames(f, f.cameras[c.handle])
    {
      QueuedSlotIsOut(f, c, k, p);
    }
  }

  lemma OutFramesAreQueuedSlots(t: Fake.Tables, w: World, h: Id, k: nat)
    requires Coupled(t, w) && h in w.d.cams && h in w.f.cameras && w.d.cams[h].handle == h
    requires LiveOf(w.d.cams[h]) == Some(k) && k <= |SlotsOf(w.d.cams[h])|
    ensures OutFrames(w.f, w.f.cameras[h]) == Boxes(w.f.frames, SlotsOf(w.d.cams[h])[..k])
  {
    OutFramesInBoxes(t, w, h, k);
    BoxesInOutFrames(w.f, w.d.cams[h], k);
  }

  lemma LiveIsBounded(c: CameraState)
    requires Shaped(c) && LiveOf(c).Some?
    ensures LiveOf(c).value <= |SlotsOf(c)|
  {
  }

  lemma LiveCameraFacts(t: Fake.Tables, w: World, h: Id)
    requires Coupled(t, w) && h in w.d.cams && LiveOf(w.d.cams[h]).Some?
    ensures h in w.f.cameras && w.d.cams[h].handle == h && Distinct(SlotsOf(w.d.cams[h]))
    ensures LiveOf(w.d.cams[h]).value <= |SlotsOf(w.d.cams[h])|
    ensures forall s <- SlotsOf(w.d.cams[h]) :: s in w.f.frames
  {
    SlotsAreApart(t.announced, w.d.cams);
    HoldingsIssued(t, w.d, h);
    LiveIsBounded(w.d.cams[h]);
    SlotsInHeap(w.f, w.d.cams[h]);
  }

  lemma PrefixBoxCount(frames: map<Id, Addr>, heap: map<Addr, Context>, slots: seq<Id>, k: nat)
    requires BoxesOk(frames, heap) && Distinct(slots) && k <= |slots| && forall s <- slots :: s in frames
    ensures |Boxes(frames, slots[..k])| == k
  {
    forall s <- slots[..k]
      ensures s in frames
    {
      assert s in slots;
    }
    BoxCount(frames, slots[..k]);
  }

  lemma OutFramesCount(t: Fake.Tables, w: World, h: Id, k: nat)
    requires Coupled(t, w) && h in w.d.cams && h in w.f.cameras && w.d.cams[h].handle == h
    requires LiveOf(w.d.cams[h]) == Some(k) && k <= |SlotsOf(w.d.cams[h])|
    requires Distinct(SlotsOf(w.d.cams[h])) && forall s <- SlotsOf(w.d.cams[h]) :: s in w.f.frames
    ensures |OutFrames(w.f, w.f.cameras[h])| == k
  {
    OutFramesAreQueuedSlots(t, w, h, k);
    PrefixBoxCount(w.f.frames, w.f.heap, SlotsOf(w.d.cams[h]), k);
  }

  /** The slots a capture has queued are the frames in the SDK's queue, those
      in a trampoline and those retired. */
  predicate Conserved(w: World) {
    forall h <- w.d.cams :: LiveOf(w.d.cams[h]).Some? ==>
      h in w.f.cameras && LiveOf(w.d.cams[h]).value == Circulation(w.f, w.f.cameras[h])
  }

  function Circulation(f: FfiState, raw: Addr): nat {
    |QueuedFrames(f, raw)| + |FlyingFrames(f, raw)| + |RetiredFrames(f, raw)|
  }

  /** Conservation, for every camera from its queue loop to its `capture_end`. */
  lemma FramesAreConserved(w: World)
    requires Reachable(w)
    ensures Conserved(w)
  {
    var t := ReachableIsCoupled(w);
    CoupledConserved(t, w);
  }

  lemma CoupledConserved(t: Fake.Tables, w: World)
    requires Coupled(t, w)
    ensures Conserved(w)
  {
    forall h <- w.d.cams | LiveOf(w.d.cams[h]).Some?
      ensures h in w.f.cameras && LiveOf(w.d.cams[h]).value == Circulation(w.f, w.f.cameras[h])
    {
      LiveCameraFacts(t, w, h);
      OutFramesCount(t, w, h, LiveOf(w.d.cams[h]).value);
      OutFramesSplit(w.f, w.f.cameras[h]);
    }
  }

  /** What a trampoline stage does to the frames in circulation: it takes one
      out exactly when the callback of a completed frame panics, which skips
      the re-queue, or when the SDK refuses the re-queue. */
  predicate RetiresExactly(f: FfiState, f': FfiState, x: Step) {
    forall p <- f.sdk.frames :: !f.sdk.frames[p].status.Retired? ==>
      && p in f'.sdk.frames
      && (f'.sdk.frames[p].status.Retired?
          <==> || (x == Dispatch(p, true) && f.sdk.frames[p].status == Entered(true))
               || (x == Requeue(p, false) && f.sdk.frames[p].status == Returning))
  }

  lemma RetiresIff(w: World, x: Step)
    requires Reachable(w) && !x.Domain?
    ensures RetiresExactly(w.f, Take(w, x).f, x)
  {
    PointersAreLive(w);
    StageRetiresIff(w, x);
  }

  lemma StageRetiresIff(w: World, x: Step)
    requires PointersLive(w) && !x.Domain?
    ensures RetiresExactly(w.f, Take(w, x).f, x)
  {
    forall p <- w.f.sdk.frames | !w.f.sdk.frames[p].status.Retired?
      ensures p in Take(w, x).f.sdk.frames
      ensures Take(w, x).f.sdk.frames[p].status.Retired?
         <==> || (x == Dispatch(p, true) && w.f.sdk.frames[p].status == Entered(true))
              || (x == Requeue(p, false) && w.f.sdk.frames[p].status == Returning)
    {
      match x
      case Fire(q, complete) => FiringRetiresNone(w.f, p, q, complete);
      case Dispatch(q, panics) => DispatchRetiresIff(w.f, p, q, panics);
      case Requeue(q, accepted) => RequeueRetiresIff(w.f, p, q, accepted);
    }
  }

  lemma FiringRetiresNone(f: FfiState, p: Addr, q: Addr, complete: bool)
    requires p in f.sdk.frames && !f.sdk.frames[p].status.Retired?
    ensures var g := EnterTrampoline(f, q, complete);
      p in g.sdk.frames && !g.sdk.frames[p].status.Retired?
  {
  }

  lemma DispatchRetiresIff(f: FfiState, p: Addr, q: Addr, panics: bool)
    requires p in f.sdk.frames && Reaches(f, p) && f.heap[p].context0.Some?
    requires !f.sdk.frames[p].status.Retired?
    ensures var g := RunCallback(f, q, panics);
      p in g.sdk.frames
      && (g.sdk.frames[p].status.Retired? <==> q == p && panics && f.sdk.frames[p].status == Entered(true))
  {
    DispatchMarks(f, q, panics);
    if q == p && Dispatches(f, p) {
      assert Reaches(f, p);
    }
  }

  lemma RequeueRetiresIff(f: FfiState, p: Addr, q: Addr, accepted: bool)
    requires p in f.sdk.frames && Reaches(f, p) && !f.sdk.frames[p].status.Retired?
    ensures var g := HandBack(f, q, accepted);
      p in g.sdk.frames
      && (g.sdk.frames[p].status.Retired? <==> q == p && !accepted && f.sdk.frames[p].status == Returning)
  {
    HandBackMarks(f, q, accepted);
    if q == p && HandsBack(f, p) {
      assert Reaches(f, p);
    }
  }

  // --- Callbacks and completed frames -----------------------------------

  /** Completed frames inside a trampoline that has not invoked yet. */
  function Waiting(frames: map<Addr, SdkFrame>): set<Addr> {
    set p | p in frames && frames[p].status == Entered(true)
  }

  /** No trampoline ever read a freed context, the placeholder was never
      invoked, and every completed firing has invoked its callback once or is
      about to. */
  predicate HistoryOk(f: FfiState) {
    && f.history.faults == 0
    && (forall i :: 0 <= i < |f.history.invoked| ==> f.history.invoked[i].callback.User?)
    && f.history.completed == |f.history.invoked| + |Waiting(f.sdk.frames)|
  }

  lemma QueueKeepsHistory(f: FfiState, slot: Id, cb: Id, raw: Addr, a: Answer)
    ensures ServeQueue(f, slot, cb, raw, a).0.history == f.history
  {
  }

  lemma CaptureKeepsHistory(f: FfiState, c: Call, raw: Addr, a: Answer)
    requires Target(c).Some?
    ensures ServeCapture(f, c, raw, a).0.history == f.history
  {
    if c.QueueFrame? {
      QueueKeepsHistory(f, c.slot, c.cb, raw, a);
    }
  }

  lemma OtherKeepsHistory(f: FfiState, c: Call, a: Answer)
    requires Target(c).None?
    ensures ServeOther(f, c, a).0.history == f.history
  {
  }

  lemma CallsKeepHistory(f: FfiState, c: Call, a: Answer)
    ensures Serve(f, c, a).0.history == f.history
  {
    if Target(c).None? {
      OtherKeepsHistory(f, c, a);
    } else if Target(c).value in f.cameras {
      CaptureKeepsHistory(f, c, f.cameras[Target(c).value], a);
    }
  }

  lemma WaitingUnchanged(f: map<Addr, SdkFrame>, g: map<Addr, SdkFrame>)
    requires forall p <- f :: f[p].status == Entered(true) ==> p in g && g[p].status == Entered(true)
    requires forall p <- g :: g[p].status == Entered(true) ==> p in f && f[p].status == Entered(true)
    ensures Waiting(f) == Waiting(g)
  {
  }

  lemma EnteringWaits(f: FfiState, p: Addr, complete: bool)
    requires HistoryOk(f)
    ensures HistoryOk(EnterTrampoline(f, p, complete))
  {
    if Fires(f, p) {
      var g := EnterTrampoline(f, p, complete);
      if complete {
        assert Waiting(g.sdk.frames) == Waiting(f.sdk.frames) + {p};
      } else {
        WaitingUnchanged(f.sdk.frames, g.sdk.frames);
      }
    }
  }

  lemma LeavingStopsWaiting(frames: map<Addr, SdkFrame>, p: Addr, s: Status)
    requires p in frames && frames[p].status.Entered? && !s.Entered?
    ensures Waiting(frames[p := frames[p].(status := s)]) == Waiting(frames) - {p}
    ensures p in Waiting(frames) <==> frames[p].status.complete
  {
  }

  lemma InvokingStopsWaiting(f: FfiState, p: Addr, panics: bool)
    requires HistoryOk(f)
    requires Dispatches(f, p) ==> p in f.heap && f.heap[p].context0 == Some(p) && f.heap[p].callback.User?
    ensures HistoryOk(RunCallback(f, p, panics))
  {
    if Dispatches(f, p) {
      LeavingStopsWaiting(f.sdk.frames, p, StatusAfter(f, p, panics));
      assert Callee(f, p).Some? <==> p in Waiting(f.sdk.frames);
    }
  }

  lemma HandingBackIsQuiet(f: FfiState, p: Addr, accepted: bool)
    requires HistoryOk(f)
    requires p in f.sdk.frames ==> Reaches(f, p)
    ensures HistoryOk(HandBack(f, p, accepted))
  {
    if HandsBack(f, p) {
      WaitingUnchanged(f.sdk.frames, HandBack(f, p, accepted).sdk.frames);
    }
  }

  lemma CallsKeepWaiting(t: Fake.Tables, w: World, who: Actor, a: Answer)
    requires Coupled(t, w) && CanCall(w.d, who) && w.f.draws < U64
    requires Admissible(w, Domain(Invoke(who, a))) && RevokesAlone(w, Domain(Invoke(who, a)))
    ensures Waiting(Serve(w.f, CallOf(w.d, who), a).0.sdk.frames) == Waiting(w.f.sdk.frames)
  {
    var call := CallOf(w.d, who);
    if Quiet(call) {
      QuietCallKeepsFrames(w.f, call, a);
    } else {
      CameraCallKeepsWaiting(t, w, who.h, a);
    }
  }

  lemma AnnouncingKeepsWaiting(f: FfiState, h: Id, size: nat, a: Answer)
    requires f.sdk.frames.Keys == f.heap.Keys && a.addr !in f.heap
    ensures Waiting(Serve(f, AnnounceFrame(h, size), a).0.sdk.frames) == Waiting(f.sdk.frames)
  {
    if h in f.cameras && a.fail.None? {
      WaitingUnchanged(f.sdk.frames, f.sdk.frames[a.addr := SdkFrame(f.cameras[h], Announced)]);
    }
  }

  lemma QueueingKeepsWaiting(f: FfiState, h: Id, slot: Id, cb: Id, a: Answer)
    requires slot in f.frames && f.frames[slot] in f.sdk.frames
    requires f.sdk.frames[f.frames[slot]].status == Announced
    ensures Waiting(Serve(f, QueueFrame(h, slot, cb), a).0.sdk.frames) == Waiting(f.sdk.frames)
  {
    if h in f.cameras && cb in f.frameCallbacks && a.fail.None? {
      WaitingUnchanged(f.sdk.frames, f.sdk.frames[f.frames[slot] := SdkFrame(f.cameras[h], Queued)]);
    }
  }

  lemma FlushingKeepsWaiting(f: FfiState, h: Id, a: Answer)
    ensures Waiting(Serve(f, CaptureQueueFlush(h), a).0.sdk.frames) == Waiting(f.sdk.frames)
  {
    if h in f.cameras && a.fail.None? {
      WaitingUnchanged(f.sdk.frames, AfterFlush(f.sdk.frames, f.cameras[h]));
    }
  }

  lemma RevokingFindsNobodyWaiting(t: Fake.Tables, w: World, h: Id, a: Answer)
    requires Coupled(t, w) && h in w.d.cams && h in w.f.cameras && w.d.cams[h].handle == h
    requires Alone(w.d.cams, h)
    requires !CallbackRunning(w.f.sdk, w.f.cameras[h])
    ensures Waiting(w.f.sdk.frames) == {}
  {
    AllBoxesMine(t, w, h);
    AllFramesMine(w.f, w.d.cams, h);
    NobodyWaits(w.f, w.f.cameras[h]);
  }

  lemma RevokingKeepsWaiting(t: Fake.Tables, w: World, h: Id, a: Answer)
    requires Coupled(t, w) && CanCall(w.d, Cam(h)) && Next(w.d.cams[h]) == FrameRevokeAll(h)
    requires w.d.cams[h].handle == h && Allowed(w.f, FrameRevokeAll(h), a) && Alone(w.d.cams, h)
    ensures Waiting(Serve(w.f, FrameRevokeAll(h), a).0.sdk.frames) == Waiting(w.f.sdk.frames)
  {
    RevokingAloneIsSafe(t, w, h, a);
    RevokingFindsNobodyWaiting(t, w, h, a);
  }

  lemma FrameCallKeepsWaiting(f: FfiState, c: CameraState, a: Answer)
    requires c.handle in f.cameras && CameraFrames(f, c) && f.sdk.frames.Keys == f.heap.Keys
    requires Busy(c) && Shaped(c) && Allowed(f, Next(c), a)
    requires !Quiet(Next(c)) && !Next(c).FrameRevokeAll?
    ensures Waiting(Serve(f, Next(c), a).0.sdk.frames) == Waiting(f.sdk.frames)
  {
    match Next(c)
    case AnnounceFrame(h, size) => AnnouncingKeepsWaiting(f, h, size, a);
    case QueueFrame(h, slot, cb) =>
      QueueTargetIsIdle(f, c);
      QueueingKeepsWaiting(f, h, slot, cb, a);
    case CaptureQueueFlush(h) => FlushingKeepsWaiting(f, h, a);
  }

  lemma CameraCallKeepsWaiting(t: Fake.Tables, w: World, h: Id, a: Answer)
    requires Coupled(t, w) && CanCall(w.d, Cam(h)) && !Quiet(CallOf(w.d, Cam(h)))
    requires Allowed(w.f, CallOf(w.d, Cam(h)), a)
    requires CallOf(w.d, Cam(h)).FrameRevokeAll? ==> Alone(w.d.cams, h)
    ensures Waiting(Serve(w.f, CallOf(w.d, Cam(h)), a).0.sdk.frames) == Waiting(w.f.sdk.frames)
  {
    HoldingsIssued(t, w.d, h);
    var c := w.d.cams[h];
    if Next(c).FrameRevokeAll? {
      RevokingKeepsWaiting(t, w, h, a);
    } else {
      FrameCallKeepsWaiting(w.f, c, a);
    }
  }

  lemma NobodyWaits(f: FfiState, raw: Addr)
    requires !CallbackRunning(f.sdk, raw) && forall p <- f.sdk.frames :: f.sdk.frames[p].camera == raw
    ensures Waiting(f.sdk.frames) == {}
  {
    forall p <- f.sdk.frames
      ensures f.sdk.frames[p].status != Entered(true)
    {
      assert !InFlight(f.sdk.frames[p].status);
    }
  }

  lemma DispatchKeepsHistory(t: Fake.Tables, w: World, p: Addr, panics: bool)
    requires Coupled(t, w) && HistoryOk(w.f)
    ensures HistoryOk(RunCallback(w.f, p, panics))
  {
    DispatchedBoxIsUsers(t, w, p);
    InvokingStopsWaiting(w.f, p, panics);
  }

  lemma DispatchedBoxIsUsers(t: Fake.Tables, w: World, p: Addr)
    requires Coupled(t, w)
    ensures Dispatches(w.f, p) ==> p in w.f.heap && w.f.heap[p].context0 == Some(p) && w.f.heap[p].callback.User?
  {
    if Dispatches(w.f, p) {
      var h, i := OwnerOf(t, w, p);
    }
  }

  lemma HandBackKeepsHistory(t: Fake.Tables, w: World, p: Addr, accepted: bool)
    requires Coupled(t, w) && HistoryOk(w.f)
    ensures HistoryOk(HandBack(w.f, p, accepted))
  {
    CoupledPointersLive(t, w);
    HandingBackIsQuiet(w.f, p, accepted);
  }

  /** A trampoline step is one of the three stages. */
  function Stage(f: FfiState, x: Step): FfiState
    requires !x.Domain?
  {
    match x
    case Fire(p, complete) => EnterTrampoline(f, p, complete)
    case Dispatch(p, panics) => RunCallback(f, p, panics)
    case Requeue(p, accepted) => HandBack(f, p, accepted)
  }

  lemma TrampolineTaken(w: World, x: Step)
    requires !x.Domain?
    ensures Take(w, x) == w.(f := Stage(w.f, x))
  {
  }

  lemma StageKeepsHistory(t: Fake.Tables, w: World, x: Step)
    requires Coupled(t, w) && HistoryOk(w.f) && !x.Domain?
    ensures HistoryOk(Stage(w.f, x))
  {
    match x
    case Fire(p, complete) => EnteringWaits(w.f, p, complete);
    case Dispatch(p, panics) => DispatchKeepsHistory(t, w, p, panics);
    case Requeue(p, accepted) => HandBackKeepsHistory(t, w, p, accepted);
  }

  lemma CallKeepsHistory(t: Fake.Tables, w: World, who: Actor, a: Answer)
    requires Coupled(t, w) && CanCall(w.d, who) && w.f.draws < U64 && HistoryOk(w.f)
    requires Admissible(w, Domain(Invoke(who, a))) && RevokesAlone(w, Domain(Invoke(who, a)))
    ensures HistoryOk(Take(w, Domain(Invoke(who, a))).f)
  {
    CallsKeepHistory(w.f, CallOf(w.d, who), a);
    CallsKeepWaiting(t, w, who, a);
  }

  lemma StepKeepsHistory(t: Fake.Tables, w: World, x: Step)
    requires Coupled(t, w) && w.f.draws < U64 && HistoryOk(w.f)
    requires Admissible(w, x) && RevokesAlone(w, x)
    ensures HistoryOk(Take(w, x).f)
  {
    if !x.Domain? {
      TrampolineTaken(w, x);
      StageKeepsHistory(t, w, x);
    } else if x.e.Invoke? && CanCall(w.d, x.e.who) {
      CallKeepsHistory(t, w, x.e.who, x.e.answer);
    }
  }

  /** In every run no trampoline reads a freed context, only user closures
      are invoked, and callback invocations are the completed firings less
      those still on their way to the callback; incomplete frames go back
      without one. */
  lemma {:induction false} CallbacksMatchCompletedFrames(xs: seq<Step>)
    requires Proper(xs)
    ensures HistoryOk(Run(xs).f)
  {
    if xs != [] {
      var front := xs[..|xs| - 1];
      ProperPrefix(xs);
      RunsStayCoupled(front);
      CallbacksMatchCompletedFrames(front);
      StepKeepsHistory(FakeTables(front), Run(front), xs[|xs| - 1]);
    }
  }
}
