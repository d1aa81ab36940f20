/** A method of a camera, run without interruption in a world of many clients,
    is the run of that camera alone: the interleaved runs contain the methods
    of `CameraClient` as they are. */
module MethodRuns {
  import opened Port
  import opened CameraProgram
  import opened FakeModel
  import opened DrivenCalls
  import Domain
  import opened FakeWorld

  /** The next call of camera `h`, answered as the configuration says. */
  function NextStep(w: World, g: Config, h: Id): Step
    requires Domain.CanCall(w.d, Domain.Cam(h))
  {
    Step.Domain(Domain.Invoke(Domain.Cam(h), AnswerOf(g, Domain.CallOf(w.d, Domain.Cam(h))).1))
  }

  /** Camera `h` makes its calls until its method returns; nobody else moves. */
  function Undisturbed(w: World, g: Config, h: Id): World
    requires h in w.d.cams && Shaped(w.d.cams[h])
    decreases Remaining(w.d.cams[h])
  {
    if !Busy(w.d.cams[h]) then w
    else
      var c := Domain.CallOf(w.d, Domain.Cam(h));
      var w' := Take(w, NextStep(w, g, h));
      AdvanceProgresses(w.d.cams[h], Serve(w.t, c, AnswerOf(g, c).1).1);
      if h in w'.d.cams then Undisturbed(w', AnswerOf(g, c).0, h) else w'
  }

  /** The calls of a history, in order. */
  function Made(trace: seq<Domain.Entry>): seq<Call> {
    seq(|trace|, i requires 0 <= i < |trace| => trace[i].call)
  }

  /** Camera `h` of `w` is now `c`, or gone if that is dropped, the tables are
      those of `f`, the calls `made` were added to the history, and nothing else
      changed. */
  predicate Became(w: World, h: Id, f: Fake, c: CameraState, made: seq<Call>, w': World) {
    && w'.t == f.tables
    && w'.d.cams == (if c.pc.Dropped? then w.d.cams - {h} else w.d.cams[h := c])
    && w'.d.regs == w.d.regs && w'.delivered == w.delivered
    && Made(w'.d.trace) == Made(w.d.trace) + made
  }

  lemma StepBecomes(w: World, f: Fake, h: Id)
    requires Domain.CanCall(w.d, Domain.Cam(h)) && f.tables == w.t
    ensures var c := w.d.cams[h];
      var (f', r) := Apply(f, Next(c));
      Became(w, h, f', Advance(c, r), [Next(c)], Take(w, NextStep(w, f.config, h)))
  {
  }

  lemma BecameThenBecame(w: World, h: Id, f: Fake, c: CameraState, made: seq<Call>, w': World,
                         f': Fake, c': CameraState, more: seq<Call>, w'': World)
    requires Became(w, h, f, c, made, w') && !c.pc.Dropped? && Became(w', h, f', c', more, w'')
    ensures Became(w, h, f', c', made + more, w'')
  {
    assert w.d.cams[h := c] - {h} == w.d.cams - {h};
    assert Made(w.d.trace) + (made + more) == Made(w.d.trace) + made + more;
  }

  lemma {:induction false} UndisturbedIsDrive(w: World, f: Fake, h: Id)
    requires h in w.d.cams && Shaped(w.d.cams[h]) && !w.d.cams[h].pc.Dropped? && f.tables == w.t
    ensures var (f', c') := Drive(f, w.d.cams[h]);
      Became(w, h, f', c', CallsMade(f, w.d.cams[h]), Undisturbed(w, f.config, h))
    decreases Remaining(w.d.cams[h])
  {
    var c := w.d.cams[h];
    if Busy(c) {
      var (f', r) := Apply(f, Next(c));
      var w' := Take(w, NextStep(w, f.config, h));
      AdvanceProgresses(c, r);
      StepBecomes(w, f, h);
      if Advance(c, r).pc.Dropped? {
        assert Undisturbed(w, f.config, h) == w';
      } else {
        UndisturbedIsDrive(w', f', h);
        BecameThenBecame(w, h, f', Advance(c, r), [Next(c)], w', Drive(f', Advance(c, r)).0,
                         Drive(f', Advance(c, r)).1, CallsMade(f', Advance(c, r)), Undisturbed(w', f'.config, h));
      }
    } else {
      assert w.d.cams[h := c] == w.d.cams;
      assert Made(w.d.trace) + [] == Made(w.d.trace);
    }
  }

  /** Taking `x` and then letting camera `h` alone make its calls has the effect
      of the method entered as `c0` on the fake `f`. */
  predicate RunsMethod(w: World, f: Fake, h: Id, x: Step, c0: CameraState) {
    && h in Take(w, x).d.cams && Shaped(Take(w, x).d.cams[h]) && Shaped(c0)
    && Became(w, h, Drive(f, c0).0, Drive(f, c0).1, CallsMade(f, c0), Undisturbed(Take(w, x), f.config, h))
  }

  lemma EnteredRuns(w: World, f: Fake, h: Id, x: Step, c0: CameraState)
    requires h in w.d.cams && f.tables == w.t && Shaped(c0) && !c0.pc.Dropped?
    requires Take(w, x) == w.(d := w.d.(cams := w.d.cams[h := c0]))
    ensures RunsMethod(w, f, h, x, c0)
  {
    UndisturbedIsDrive(Take(w, x), f, h);
    assert w.d.cams[h := c0] - {h} == w.d.cams - {h};
    assert w.d.cams[h := c0][h := Drive(f, c0).1] == w.d.cams[h := Drive(f, c0).1];
  }

  /** In any world, entering a method of a camera between methods and then
      letting that camera alone make its calls has the effect of the method on
      the fake: the same tables, the same camera, and in the history exactly the
      calls the fake logs. */
  lemma MethodsAreRuns(w: World, f: Fake, h: Id, buffers: nat, closure: Closure)
    requires h in w.d.cams && w.d.cams[h].pc.Ready? && Shaped(w.d.cams[h]) && f.tables == w.t
    ensures RunsMethod(w, f, h, Step.Domain(Domain.Start(h, buffers, closure)),
                       BeginStart(w.d.cams[h], buffers, closure))
    ensures RunsMethod(w, f, h, Step.Domain(Domain.Stop(h)), BeginStop(w.d.cams[h]))
    ensures RunsMethod(w, f, h, Step.Domain(Domain.Drop(h)), BeginDrop(w.d.cams[h]))
  {
    var c := w.d.cams[h];
    EnteredRuns(w, f, h, Step.Domain(Domain.Start(h, buffers, closure)), BeginStart(c, buffers, closure));
    EnteredRuns(w, f, h, Step.Domain(Domain.Stop(h)), BeginStop(c));
    EnteredRuns(w, f, h, Step.Domain(Domain.Drop(h)), BeginDrop(c));
  }
}
