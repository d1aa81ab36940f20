/** A run that shows why revoking must be separated: a second camera whose
    start fails at its first announce frees the first camera's contexts while
    the SDK still delivers into them. Only one camera ever has a slot. */
module TwoCameras {
  import opened Port
  import opened CameraProgram
  import opened Domain
  import opened FfiModel
  import opened FfiWorld
  import opened FrameLiveness
  import opened TableInvariant
  import Fake = FakeModel
  import Simulation
  import FakeWorld

  /** At most one camera has announced slots. */
  predicate OneHolder(cams: map<Id, CameraState>) {
    forall h <- cams, k <- cams :: SlotsOf(cams[h]) != [] && SlotsOf(cams[k]) != [] ==> h == k
  }

  predicate OneHolderThroughout(xs: seq<Step>) {
    OneHolder(Run(xs).d.cams) && (xs == [] || OneHolderThroughout(xs[..|xs| - 1]))
  }

  /** A run the SDK and its callers can produce, with never more than one
      camera holding slots. */
  predicate Produced(xs: seq<Step>) {
    Admitted(xs) && OneHolderThroughout(xs)
  }

  lemma ExtendProduced(xs: seq<Step>, x: Step)
    requires Produced(xs) && Admissible(Run(xs), x) && OneHolder(Take(Run(xs), x).d.cams)
    ensures Run(xs + [x]) == Take(Run(xs), x) && Produced(xs + [x])
  {
    var ys := xs + [x];
    assert ys[..|ys| - 1] == xs && ys[|ys| - 1] == x;
  }

  /** And up to here no revoke has hit another camera's slots. */
  predicate Legal(xs: seq<Step>) {
    Produced(xs) && Separated(xs)
  }

  lemma Extend(xs: seq<Step>, x: Step)
    requires Legal(xs) && Admissible(Run(xs), x) && OneHolder(Take(Run(xs), x).d.cams) && RevokesAlone(Run(xs), x)
    ensures Run(xs + [x]) == Take(Run(xs), x) && Legal(xs + [x])
  {
    ExtendProduced(xs, x);
    var ys := xs + [x];
    assert ys[..|ys| - 1] == xs && ys[|ys| - 1] == x;
  }

  const FINE := Answer(None, 8, 0, 0)

  function Ask(h: Id, a: Answer): Step {
    Domain(Invoke(Cam(h), a))
  }

  const BOX := 50
  const RUNNING := CameraState(1, Some(Session(3, [4])), 1, 7, Ok, Ready)

  const ONE_OPEN := NO_FFI.(cameras := map[1 := 10], draws := 1)

  function Open(raw: Addr): Step {
    Domain(Invoke(Opener(""), FINE.(raw := raw)))
  }

  lemma OpenTaken(w: World, raw: Addr)
    requires raw !in w.f.cameras.Values && w.f.draws < 2
    ensures var h := w.f.draws + 1;
      && Take(w, Open(raw)).f == w.f.(cameras := w.f.cameras[h := raw], draws := h)
      && Take(w, Open(raw)).d.cams == w.d.cams[h := Opened(h)] && Take(w, Open(raw)).d.regs == w.d.regs
    ensures Admissible(w, Open(raw)) && RevokesAlone(w, Open(raw))
  {
  }

  lemma OpenOne() returns (xs: seq<Step>)
    ensures Legal(xs) && Run(xs).d.cams == map[1 := Opened(1)] && Run(xs).d.regs == map[] && Run(xs).f == ONE_OPEN
  {
    OpenTaken(Run([]), 10);
    Extend([], Open(10));
    xs := [] + [Open(10)];
  }

  lemma OpenBoth() returns (xs: seq<Step>)
    ensures Legal(xs)
    ensures Run(xs).d.cams == map[1 := Opened(1), 2 := Opened(2)] && Run(xs).d.regs == map[]
    ensures Run(xs).f == NO_FFI.(cameras := map[1 := 10, 2 := 20], draws := 2)
  {
    xs := OpenOne();
    OpenTaken(Run(xs), 20);
    Extend(xs, Open(20));
    xs := xs + [Open(20)];
  }

  function Program(h: Id, closure: Closure, pc: Pc): CameraState {
    CameraState(h, None, 1, closure, Ok, pc)
  }

  /** The world with the two programs `c1`, `c2` and adapter state `f`. */
  predicate At(w: World, c1: CameraState, c2: CameraState, f: FfiState) {
    w.d.cams == map[1 := c1, 2 := c2] && w.d.regs == map[] && w.f == f
  }

  /** A camera program makes one call: its next state and the adapter's. */
  predicate Moves(c: CameraState, f: FfiState, a: Answer, c': CameraState, f': FfiState) {
    && Shaped(c) && Busy(c) && !c'.pc.Dropped? && Allowed(f, Next(c), a)
    && Serve(f, Next(c), a).0 == f' && Advance(c, Serve(f, Next(c), a).1) == c'
  }

  lemma FirstTaken(w: World, a: Answer, c: CameraState, other: CameraState, f: FfiState,
                   c': CameraState, f': FfiState)
    requires At(w, c, other, f) && Moves(c, f, a, c', f') && !Next(c).FrameRevokeAll?
    ensures At(Take(w, Ask(1, a)), c', other, f')
    ensures Admissible(w, Ask(1, a)) && RevokesAlone(w, Ask(1, a))
  {
    assert w.d.cams[1 := c'] == map[1 := c', 2 := other];
  }

  lemma FirstMoves(xs: seq<Step>, a: Answer, c: CameraState, other: CameraState, f: FfiState,
                   c': CameraState, f': FfiState) returns (ys: seq<Step>)
    requires Legal(xs) && At(Run(xs), c, other, f) && Moves(c, f, a, c', f') && SlotsOf(other) == []
    requires !Next(c).FrameRevokeAll?
    ensures Legal(ys) && At(Run(ys), c', other, f')
  {
    FirstTaken(Run(xs), a, c, other, f, c', f');
    Extend(xs, Ask(1, a));
    ys := xs + [Ask(1, a)];
  }

  lemma SecondTaken(w: World, a: Answer, c: CameraState, other: CameraState, f: FfiState,
                    c': CameraState, f': FfiState)
    requires At(w, other, c, f) && Moves(c, f, a, c', f')
    ensures At(Take(w, Ask(2, a)), other, c', f') && Admissible(w, Ask(2, a))
    ensures !Next(c).FrameRevokeAll? ==> RevokesAlone(w, Ask(2, a))
  {
    assert w.d.cams[2 := c'] == map[1 := other, 2 := c'];
  }

  lemma SecondMoves(xs: seq<Step>, a: Answer, c: CameraState, other: CameraState, f: FfiState,
                    c': CameraState, f': FfiState) returns (ys: seq<Step>)
    requires Legal(xs) && At(Run(xs), other, c, f) && Moves(c, f, a, c', f') && SlotsOf(c') == []
    requires !Next(c).FrameRevokeAll?
    ensures Legal(ys) && At(Run(ys), other, c', f')
  {
    SecondTaken(Run(xs), a, c, other, f, c', f');
    Extend(xs, Ask(2, a));
    ys := xs + [Ask(2, a)];
  }

  const OPENED := NO_FFI.(cameras := map[1 := 10, 2 := 20], draws := 2)
  const INSTALLED := OPENED.(draws := 3, frameCallbacks := map[3 := 7])
  const ANNOUNCED := INSTALLED.(draws := 4, frames := map[4 := BOX],
                                heap := map[BOX := Context(Placeholder, Some(BOX))],
                                sdk := SdkState({}, map[BOX := SdkFrame(10, Announced)]))
  const STARTED := ANNOUNCED.(sdk := SdkState({10}, map[BOX := SdkFrame(10, Announced)]))
  const QUEUED := STARTED.(heap := map[BOX := Context(User(7), Some(BOX))],
                           sdk := SdkState({10}, map[BOX := SdkFrame(10, Queued)]))

  const SLOT := Session(3, [4])

  lemma FirstSizes()
    ensures Moves(Program(1, 7, Sizing), OPENED, FINE, Program(1, 7, Installing(8)), OPENED)
  {
  }

  lemma FirstInstalls()
    ensures Moves(Program(1, 7, Installing(8)), OPENED, FINE,
                  Program(1, 7, Within(Session(3, []), Announcing(8))), INSTALLED)
  {
  }

  lemma FirstAnnounces()
    ensures Moves(Program(1, 7, Within(Session(3, []), Announcing(8))), INSTALLED, FINE.(addr := BOX),
                  Program(1, 7, Within(SLOT, Starting)), ANNOUNCED)
  {
  }

  lemma FirstStarts()
    ensures Moves(Program(1, 7, Within(SLOT, Starting)), ANNOUNCED, FINE,
                  Program(1, 7, Within(SLOT, Queueing(0))), STARTED)
  {
  }

  lemma FirstQueues()
    ensures Moves(Program(1, 7, Within(SLOT, Queueing(0))), STARTED, FINE,
                  Program(1, 7, Within(SLOT, Acquiring)), QUEUED)
  {
  }

  lemma FirstAcquires()
    ensures Moves(Program(1, 7, Within(SLOT, Acquiring)), QUEUED, FINE, RUNNING, QUEUED)
  {
  }

  const REFUSED := FINE.(fail := Some(Sdk(-14)))
  const UNWINDING := Unwinding(Sdk(-14))
  const EMPTY := Session(5, [])
  const SECOND_IN := QUEUED.(draws := 5, frameCallbacks := map[3 := 7, 5 := 9])
  const REVOKED := SECOND_IN.(frames := map[], heap := map[])

  lemma SecondSizes()
    ensures Moves(Program(2, 9, Sizing), QUEUED, FINE, Program(2, 9, Installing(8)), QUEUED)
  {
  }

  lemma SecondInstalls()
    ensures Moves(Program(2, 9, Installing(8)), QUEUED, FINE, Program(2, 9, Within(EMPTY, Announcing(8))), SECOND_IN)
  {
  }

  lemma SecondIsRefused()
    ensures Moves(Program(2, 9, Within(EMPTY, Announcing(8))), SECOND_IN, REFUSED,
                  Program(2, 9, Within(EMPTY, Ending(None, UNWINDING))), SECOND_IN)
  {
  }

  lemma SecondEnds()
    ensures Moves(Program(2, 9, Within(EMPTY, Ending(None, UNWINDING))), SECOND_IN, FINE,
                  Program(2, 9, Within(EMPTY, Flushing(UNWINDING))), SECOND_IN)
  {
  }

  lemma SecondFlushes()
    ensures Moves(Program(2, 9, Within(EMPTY, Flushing(UNWINDING))), SECOND_IN, FINE,
                  Program(2, 9, Within(EMPTY, Revoking(UNWINDING))), SECOND_IN)
  {
  }

  lemma SecondRevokes()
    ensures Moves(Program(2, 9, Within(EMPTY, Revoking(UNWINDING))), SECOND_IN, FINE,
                  Program(2, 9, Within(EMPTY, Uninstalling(UNWINDING))), REVOKED)
  {
    var frames := map[4 := BOX];
    assert frames[4] in frames.Values;
    assert SECOND_IN.frames.Values == SECOND_IN.heap.Keys == {BOX};
    RevokeServed(SECOND_IN, 2, FINE);
    assert AfterRevoke(SECOND_IN.sdk.frames, 20) == SECOND_IN.sdk.frames;
  }

  lemma FirstBegins(xs: seq<Step>) returns (ys: seq<Step>)
    requires Legal(xs) && At(Run(xs), Opened(1), Opened(2), OPENED)
    ensures Legal(ys) && At(Run(ys), Program(1, 7, Sizing), Opened(2), OPENED)
  {
    assert BeginStart(Opened(1), 1, 7) == Program(1, 7, Sizing);
    var cams := Run(xs).d.cams;
    assert cams[1 := Program(1, 7, Sizing)] == map[1 := Program(1, 7, Sizing), 2 := Opened(2)];
    Extend(xs, Domain(Start(1, 1, 7)));
    ys := xs + [Domain(Start(1, 1, 7))];
  }

  lemma SecondBegins(xs: seq<Step>) returns (ys: seq<Step>)
    requires Legal(xs) && At(Run(xs), RUNNING, Opened(2), QUEUED)
    ensures Legal(ys) && At(Run(ys), RUNNING, Program(2, 9, Sizing), QUEUED)
  {
    Extend(xs, Domain(Start(2, 1, 9)));
    ys := xs + [Domain(Start(2, 1, 9))];
  }

  lemma FirstAnnouncesIts(xs: seq<Step>) returns (ys: seq<Step>)
    requires Legal(xs) && At(Run(xs), Program(1, 7, Sizing), Opened(2), OPENED)
    ensures Legal(ys) && At(Run(ys), Program(1, 7, Within(SLOT, Starting)), Opened(2), ANNOUNCED)
  {
    var two := Opened(2);
    var c1, c2 := Program(1, 7, Sizing), Program(1, 7, Installing(8));
    var c3, c4 := Program(1, 7, Within(Session(3, []), Announcing(8))), Program(1, 7, Within(SLOT, Starting));
    FirstSizes();
    ys := FirstMoves(xs, FINE, c1, two, OPENED, c2, OPENED);
    FirstInstalls();
    ys := FirstMoves(ys, FINE, c2, two, OPENED, c3, INSTALLED);
    FirstAnnounces();
    ys := FirstMoves(ys, FINE.(addr := BOX), c3, two, INSTALLED, c4, ANNOUNCED);
  }

  lemma FirstRuns(xs: seq<Step>) returns (ys: seq<Step>)
    requires Legal(xs) && At(Run(xs), Program(1, 7, Within(SLOT, Starting)), Opened(2), ANNOUNCED)
    ensures Legal(ys) && At(Run(ys), RUNNING, Opened(2), QUEUED)
  {
    var two := Opened(2);
    var c4, c5 := Program(1, 7, Within(SLOT, Starting)), Program(1, 7, Within(SLOT, Queueing(0)));
    var c6 := Program(1, 7, Within(SLOT, Acquiring));
    FirstStarts();
    ys := FirstMoves(xs, FINE, c4, two, ANNOUNCED, c5, STARTED);
    FirstQueues();
    ys := FirstMoves(ys, FINE, c5, two, STARTED, c6, QUEUED);
    FirstAcquires();
    ys := FirstMoves(ys, FINE, c6, two, QUEUED, RUNNING, QUEUED);
  }

  lemma SecondIsTurnedDown(xs: seq<Step>) returns (ys: seq<Step>)
    requires Legal(xs) && At(Run(xs), RUNNING, Opened(2), QUEUED)
    ensures Legal(ys) && At(Run(ys), RUNNING, Program(2, 9, Within(EMPTY, Ending(None, UNWINDING))), SECOND_IN)
  {
    ys := SecondBegins(xs);
    var c1, c2 := Program(2, 9, Sizing), Program(2, 9, Installing(8));
    var c3, c4 := Program(2, 9, Within(EMPTY, Announcing(8))), Program(2, 9, Within(EMPTY, Ending(None, UNWINDING)));
    SecondSizes();
    ys := SecondMoves(ys, FINE, c1, RUNNING, QUEUED, c2, QUEUED);
    SecondInstalls();
    ys := SecondMoves(ys, FINE, c2, RUNNING, QUEUED, c3, SECOND_IN);
    SecondIsRefused();
    ys := SecondMoves(ys, REFUSED, c3, RUNNING, SECOND_IN, c4, SECOND_IN);
  }

  const ABOUT_TO_REVOKE := Program(2, 9, Within(EMPTY, Revoking(UNWINDING)))

  lemma SecondUnwinds(xs: seq<Step>) returns (ys: seq<Step>)
    requires Legal(xs)
    requires At(Run(xs), RUNNING, Program(2, 9, Within(EMPTY, Ending(None, UNWINDING))), SECOND_IN)
    ensures Legal(ys) && At(Run(ys), RUNNING, ABOUT_TO_REVOKE, SECOND_IN)
  {
    var c4 := Program(2, 9, Within(EMPTY, Ending(None, UNWINDING)));
    var c5 := Program(2, 9, Within(EMPTY, Flushing(UNWINDING)));
    SecondEnds();
    ys := SecondMoves(xs, FINE, c4, RUNNING, SECOND_IN, c5, SECOND_IN);
    SecondFlushes();
    ys := SecondMoves(ys, FINE, c5, RUNNING, SECOND_IN, ABOUT_TO_REVOKE, SECOND_IN);
  }

  /** The second camera's revoke frees the first camera's box. */
  lemma SecondRevokesAll(xs: seq<Step>)
    requires Legal(xs) && At(Run(xs), RUNNING, ABOUT_TO_REVOKE, SECOND_IN)
    ensures Produced(xs + [Ask(2, FINE)])
    ensures At(Run(xs + [Ask(2, FINE)]), RUNNING, Program(2, 9, Within(EMPTY, Uninstalling(UNWINDING))), REVOKED)
  {
    SecondRevokes();
    SecondTaken(Run(xs), FINE, ABOUT_TO_REVOKE, RUNNING, SECOND_IN,
                Program(2, 9, Within(EMPTY, Uninstalling(UNWINDING))), REVOKED);
    ExtendProduced(xs, Ask(2, FINE));
  }

  const REVOKE := FakeWorld.Domain(Invoke(Cam(2), FINE))

  /** The fake answers the revoke as the FFI adapter does. */
  lemma FakeFollows(v: FakeWorld.World, w: World)
    requires v.d == w.d && At(w, RUNNING, ABOUT_TO_REVOKE, SECOND_IN)
    ensures FakeWorld.Take(v, REVOKE).d == Take(w, Ask(2, FINE)).d
    ensures FakeWorld.Take(v, REVOKE).t.draws == v.t.draws
  {
    RevokeAnswersDone(v.t, w.f);
  }

  /** And it keeps the first camera's slot. */
  lemma FakeKeepsSlot(v: FakeWorld.World)
    requires TablesMatch(v.t, v.d) && v.t.draws < U64 && FakeWorld.Take(v, REVOKE).t.draws < U64
    requires 1 in FakeWorld.Take(v, REVOKE).d.cams && FakeWorld.Take(v, REVOKE).d.cams[1] == RUNNING
    ensures 4 in FakeWorld.Take(v, REVOKE).t.announced
  {
    StepKeepsMatch(v, REVOKE);
    HoldingsIssued(FakeWorld.Take(v, REVOKE).t, FakeWorld.Take(v, REVOKE).d, 1);
  }

  lemma SimulationBreaks(xs: seq<Step>)
    requires Legal(xs) && At(Run(xs), RUNNING, ABOUT_TO_REVOKE, SECOND_IN)
    ensures var v := FakeWorld.Run(Simulation.Erase(xs + [Ask(2, FINE)]));
      v.d == Run(xs + [Ask(2, FINE)]).d && 4 in v.t.announced
  {
    var v := FakeWorld.Run(Simulation.Erase(xs));
    Simulation.FfiSimulatesFake(xs);
    SecondRevokesAll(xs);
    ErasedCall(xs);
    FakeOneMore(Simulation.Erase(xs), REVOKE);
    ExtendProduced(xs, Ask(2, FINE));
    FakeFollows(v, Run(xs));
    FakeKeepsSlot(v);
  }

  lemma ErasedCall(xs: seq<Step>)
    ensures Simulation.Erase(xs + [Ask(2, FINE)]) == Simulation.Erase(xs) + [REVOKE]
  {
    var ys := xs + [Ask(2, FINE)];
    assert ys[..|ys| - 1] == xs && ys[|ys| - 1] == Ask(2, FINE);
  }

  lemma FakeOneMore(xs: seq<FakeWorld.Step>, x: FakeWorld.Step)
    ensures FakeWorld.Run(xs + [x]) == FakeWorld.Take(FakeWorld.Run(xs), x)
  {
    var ys := xs + [x];
    assert ys[..|ys| - 1] == xs && ys[|ys| - 1] == x;
  }

  lemma RevokeAnswersDone(t: Fake.Tables, f: FfiState)
    ensures Fake.Serve(t, FrameRevokeAll(2), FINE).1 == Serve(f, FrameRevokeAll(2), FINE).1 == Done
    ensures Fake.Serve(t, FrameRevokeAll(2), FINE).0.draws == t.draws
  {
  }

  lemma ErasedTrampoline(xs: seq<Step>, x: Step)
    requires !x.Domain?
    ensures Simulation.Erase(xs + [x]) == Simulation.Erase(xs)
  {
    var ys := xs + [x];
    assert ys[..|ys| - 1] == xs && ys[|ys| - 1] == x;
  }

  /** A run the SDK and its callers can produce, in which never more than one
      camera has slots announced, ends with the first camera still holding its
      session, its frame still in the SDK's hands, and a trampoline reading
      the freed context. The same run over the fake leaves the clients in the
      same state and the slot listed, so the simulation breaks as well. "At
      most one camera owns frames" is not enough for either. */
  lemma OneHolderIsNotEnough() returns (xs: seq<Step>)
    ensures Admitted(xs) && OneHolderThroughout(xs) && Run(xs).f.draws < U64
    ensures Run(xs).f.history.faults > 0
    ensures 1 in Run(xs).d.cams && SlotsOf(Run(xs).d.cams[1]) == [4] && 4 !in Run(xs).f.frames
    ensures BOX in Run(xs).f.sdk.frames && BOX !in Run(xs).f.heap
    ensures var v := FakeWorld.Run(Simulation.Erase(xs));
      v.d == Run(xs).d && 4 in v.t.announced
  {
    xs := OpenBoth();
    xs := FirstBegins(xs);
    xs := FirstAnnouncesIts(xs);
    xs := FirstRuns(xs);
    xs := SecondIsTurnedDown(xs);
    xs := SecondUnwinds(xs);
    SimulationBreaks(xs);
    SecondRevokesAll(xs);
    xs := FrameFaults(xs + [Ask(2, FINE)]);
  }

  /** The SDK delivers into the first camera's frame once more. */
  lemma FrameFaults(xs: seq<Step>) returns (ys: seq<Step>)
    requires Produced(xs)
    requires At(Run(xs), RUNNING, Program(2, 9, Within(EMPTY, Uninstalling(UNWINDING))), REVOKED)
    ensures Produced(ys) && Run(ys).d == Run(xs).d && Simulation.Erase(ys) == Simulation.Erase(xs)
    ensures Run(ys).f.history.faults > 0 && Run(ys).f.frames == map[] && Run(ys).f.heap == map[]
    ensures BOX in Run(ys).f.sdk.frames && Run(ys).f.draws == 5
  {
    ExtendProduced(xs, Fire(BOX, true));
    ErasedTrampoline(xs, Fire(BOX, true));
    ys := xs + [Fire(BOX, true)];
    assert BOX !in Run(ys).f.heap;
    ExtendProduced(ys, Dispatch(BOX, false));
    ErasedTrampoline(ys, Dispatch(BOX, false));
    ys := ys + [Dispatch(BOX, false)];
  }
}
