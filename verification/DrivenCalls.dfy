/** The calls a method of one camera makes on the fake, and what the fake's log
    says of them. */
module DrivenCalls {
  import opened Port
  import opened CameraProgram
  import opened FakeModel

  /** The calls made from `c` until its method returns, in order. */
  function CallsMade(f: Fake, c: CameraState): seq<Call>
    requires Shaped(c)
    decreases Remaining(c)
  {
    if !Busy(c) then []
    else
      AdvanceProgresses(c, Apply(f, Next(c)).1);
      var (f', r) := Apply(f, Next(c));
      [Next(c)] + CallsMade(f', Advance(c, r))
  }

  /** An install is logged by the id it returned, every other call by its own
      name and arguments. */
  predicate LoggedAs(e: FakeCall, c: Call, r: Reply) {
    match c
    case InstallFrameCallback(_) => r.Got? && e == InstalledFrameCallback(r.id)
    case InstallDiscoveryCallback(_) => r.Got? && e == InstalledDiscoveryCallback(r.id)
    case _ => e == Plain(c)
  }

  /** `after` is `before` with one entry for each call, in order. */
  predicate LogGrows(before: seq<FakeCall>, after: seq<FakeCall>, made: seq<Call>, rs: seq<Reply>) {
    && |made| == |rs| && |after| == |before| + |made| && before <= after
    && forall i :: 0 <= i < |made| ==> LoggedAs(after[|before| + i], made[i], rs[i])
  }

  lemma ApplyLogs(f: Fake, c: Call)
    ensures var (f', r) := Apply(f, c);
      |f'.calls| == |f.calls| + 1 && f'.calls[..|f.calls|] == f.calls && LoggedAs(f'.calls[|f.calls|], c, r)
  {
  }

  lemma LogGrowsByOne(before: seq<FakeCall>, middle: seq<FakeCall>, after: seq<FakeCall>,
                      c: Call, r: Reply, made: seq<Call>, rs: seq<Reply>)
    requires |middle| == |before| + 1 && middle[..|before|] == before && LoggedAs(middle[|before|], c, r)
    requires LogGrows(middle, after, made, rs)
    ensures LogGrows(before, after, [c] + made, [r] + rs)
  {
    forall i | 0 <= i < |made| + 1
      ensures LoggedAs(after[|before| + i], ([c] + made)[i], ([r] + rs)[i])
    {
      if i == 0 {
        assert after[|before|] == middle[|before|];
      } else {
        assert after[|middle| + (i - 1)] == after[|before| + i];
      }
    }
    assert before <= after by {
      assert before == middle[..|before|] == after[..|before|];
    }
  }

  /** Whatever fails, a method's additions to the fake's log are exactly the
      calls its program made, each under its own name, in order. */
  lemma {:induction false} DriveLogsItsCalls(f: Fake, c: CameraState)
    requires Shaped(c)
    ensures LogGrows(f.calls, Drive(f, c).0.calls, CallsMade(f, c), Replies(f, c))
    decreases Remaining(c)
  {
    if Busy(c) {
      var (f', r) := Apply(f, Next(c));
      AdvanceProgresses(c, r);
      ApplyLogs(f, Next(c));
      DriveLogsItsCalls(f', Advance(c, r));
      LogGrowsByOne(f.calls, f'.calls, Drive(f', Advance(c, r)).0.calls, Next(c), r,
                    CallsMade(f', Advance(c, r)), Replies(f', Advance(c, r)));
    }
  }

  // --- The announced size -----------------------------------------------

  /** The program will announce nothing but `size`, once it knows it. */
  predicate Sized(c: CameraState, size: nat) {
    && (c.pc.Installing? ==> c.pc.size == size)
    && (c.pc.Within? && c.pc.stage.Announcing? ==> c.pc.stage.size == size)
  }

  predicate AnnouncesOnly(made: seq<Call>, size: nat) {
    forall i :: 0 <= i < |made| && made[i].AnnounceFrame? ==> made[i].size == size
  }

  lemma StepStaysSized(f: Fake, c: CameraState)
    requires Shaped(c) && Busy(c) && Sized(c, f.config.payloadSize)
    ensures var (f', r) := Apply(f, Next(c));
      f'.config.payloadSize == f.config.payloadSize && Sized(Advance(c, r), f.config.payloadSize)
    ensures Next(c).AnnounceFrame? ==> Next(c).size == f.config.payloadSize
  {
  }

  lemma {:induction false} SizedAnnouncesOnly(f: Fake, c: CameraState)
    requires Shaped(c) && Sized(c, f.config.payloadSize)
    ensures AnnouncesOnly(CallsMade(f, c), f.config.payloadSize)
    decreases Remaining(c)
  {
    if Busy(c) {
      var (f', r) := Apply(f, Next(c));
      AdvanceProgresses(c, r);
      StepStaysSized(f, c);
      SizedAnnouncesOnly(f', Advance(c, r));
    }
  }

  /** Every buffer a `start_capture` announces has the size the fake is
      configured with. */
  lemma StartAnnouncesConfiguredSize(f: Fake, c: CameraState, buffers: nat, closure: Closure)
    requires c.pc.Ready? && Shaped(c)
    ensures AnnouncesOnly(CallsMade(f, BeginStart(c, buffers, closure)), f.config.payloadSize)
  {
    SizedAnnouncesOnly(f, BeginStart(c, buffers, closure));
  }

  // --- Calls that are not made ------------------------------------------

  /** A start on a camera that is capturing makes no call, keeps the session
      and its closure, and fails as already running. */
  lemma RunningStartIsRefused(f: Fake, c: CameraState, buffers: nat, closure: Closure)
    requires c.pc.Ready? && Shaped(c) && c.session.Some?
    ensures var c0 := BeginStart(c, buffers, closure);
      && Drive(f, c0) == (f, c.(outcome := Err(CaptureAlreadyRunning))) && CallsMade(f, c0) == []
  {
  }

  /** A stop on an idle camera makes no call; on a capturing one it makes the
      five teardown calls, in this order, whatever the first one answers. */
  lemma StopMakes(f: Fake, c: CameraState)
    requires c.pc.Ready? && Shaped(c)
    ensures CallsMade(f, BeginStop(c))
         == if c.session.None? then []
            else [RunFeatureCommand(c.handle, AcquisitionStop), CaptureEnd(c.handle), CaptureQueueFlush(c.handle),
                  FrameRevokeAll(c.handle), UninstallFrameCallback(c.session.value.callbackId)]
  {
    if c.session.Some? {
      HaltingMakes(f, BeginStop(c), c.session.value);
    }
  }

  /** A drop makes those calls if a capture is running, and then closes. */
  lemma DropMakes(f: Fake, c: CameraState)
    requires c.pc.Ready? && Shaped(c)
    ensures CallsMade(f, BeginDrop(c))
         == (if c.session.None? then []
             else [RunFeatureCommand(c.handle, AcquisitionStop), CaptureEnd(c.handle), CaptureQueueFlush(c.handle),
                   FrameRevokeAll(c.handle), UninstallFrameCallback(c.session.value.callbackId)])
            + [CloseCamera(c.handle)]
  {
    if c.session.Some? {
      HaltingMakes(f, BeginDrop(c), c.session.value);
    } else {
      ClosingMakes(f, BeginDrop(c));
    }
  }

  /** One call of a program. */
  lemma MakesNext(f: Fake, c: CameraState)
    requires Shaped(c) && Busy(c)
    ensures var (f', r) := Apply(f, Next(c));
      Shaped(Advance(c, r)) && CallsMade(f, c) == [Next(c)] + CallsMade(f', Advance(c, r))
  {
    AdvanceProgresses(c, Apply(f, Next(c)).1);
  }

  lemma ClosingMakes(f: Fake, c: CameraState)
    requires Shaped(c) && c.pc.Closing?
    ensures CallsMade(f, c) == [CloseCamera(c.handle)]
  {
    MakesNext(f, c);
    var (f', r) := Apply(f, Next(c));
    assert CallsMade(f', Advance(c, r)) == [];
  }

  function AfterTeardown(c: CameraState): seq<Call>
    requires c.pc.Within? && c.pc.stage.Uninstalling?
  {
    if c.pc.stage.why.Dropping? then [CloseCamera(c.handle)] else []
  }

  lemma UninstallingMakes(f: Fake, c: CameraState)
    requires Shaped(c) && c.pc.Within? && c.pc.stage.Uninstalling?
    ensures CallsMade(f, c) == [UninstallFrameCallback(c.pc.s.callbackId)] + AfterTeardown(c)
  {
    MakesNext(f, c);
    var (f', r) := Apply(f, Next(c));
    if c.pc.stage.why.Dropping? {
      ClosingMakes(f', Advance(c, r));
    } else {
      assert CallsMade(f', Advance(c, r)) == [];
    }
  }

  lemma RevokingMakes(f: Fake, c: CameraState)
    requires Shaped(c) && c.pc.Within? && c.pc.stage.Revoking?
    ensures CallsMade(f, c)
         == [FrameRevokeAll(c.handle), UninstallFrameCallback(c.pc.s.callbackId)]
            + if c.pc.stage.why.Dropping? then [CloseCamera(c.handle)] else []
  {
    MakesNext(f, c);
    var (f', r) := Apply(f, Next(c));
    UninstallingMakes(f', Advance(c, r));
  }

  lemma EndingMakes(f: Fake, c: CameraState)
    requires Shaped(c) && c.pc.Within? && c.pc.stage.Ending?
    ensures CallsMade(f, c)
         == [CaptureEnd(c.handle), CaptureQueueFlush(c.handle),
             FrameRevokeAll(c.handle), UninstallFrameCallback(c.pc.s.callbackId)]
            + if c.pc.stage.why.Dropping? then [CloseCamera(c.handle)] else []
  {
    MakesNext(f, c);
    var (f1, r1) := Apply(f, Next(c));
    var c1 := Advance(c, r1);
    MakesNext(f1, c1);
    var (f2, r2) := Apply(f1, Next(c1));
    RevokingMakes(f2, Advance(c1, r2));
  }

  lemma HaltingMakes(f: Fake, c: CameraState, s: Session)
    requires Shaped(c) && c.pc.Within? && c.pc.stage.Halting? && c.pc.s == s
    ensures CallsMade(f, c)
         == [RunFeatureCommand(c.handle, AcquisitionStop), CaptureEnd(c.handle), CaptureQueueFlush(c.handle),
             FrameRevokeAll(c.handle), UninstallFrameCallback(s.callbackId)]
            + if c.pc.stage.why.Dropping? then [CloseCamera(c.handle)] else []
  {
    MakesNext(f, c);
    var (f', r) := Apply(f, Next(c));
    EndingMakes(f', Advance(c, r));
  }
}
