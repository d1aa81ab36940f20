/** How one port call of one camera program changes the fake's tables, in
    terms of what the camera holds before and after the call. */
module CameraEffect {
  import opened Port
  import opened CameraProgram
  import opened FakeModel

  /** The tables list exactly what the camera believes it holds. */
  predicate Holds(t: Tables, c: CameraState)
    requires Shaped(c)
  {
    && (forall s <- SlotsOf(c) :: s in t.announced && t.announced[s] == c.handle)
    && (c.handle in t.active <==> LiveOf(c).Some?)
    && (LiveOf(c).Some? ==> t.active[c.handle] == Queued(c))
    && (CallbackOf(c).Some? ==>
          CallbackOf(c).value in t.frameCallbacks && t.frameCallbacks[CallbackOf(c).value] == c.given)
  }

  /** The three things a call can do to the camera's announced slots. */
  predicate SlotsEffect(t: Tables, c: CameraState, t': Tables, c': CameraState) {
    || (SlotsOf(c') == SlotsOf(c) && t'.announced == t.announced)
    || (SlotsOf(c') == SlotsOf(c) + [IdAfter(t.draws)]
        && t'.announced == t.announced[IdAfter(t.draws) := c.handle]
        && t'.draws == t.draws + 1)
    || (SlotsOf(c') == [] && t'.announced == OwnedByOthers(t.announced, c.handle))
  }

  predicate ActiveEffect(t: Tables, t': Tables, c': CameraState)
    requires Shaped(c')
  {
    t'.active == if LiveOf(c').Some? then t.active[c'.handle := Queued(c')] else t.active - {c'.handle}
  }

  predicate CallbackEffect(t: Tables, c: CameraState, t': Tables, c': CameraState) {
    || (CallbackOf(c') == CallbackOf(c) && t'.frameCallbacks == t.frameCallbacks)
    || (CallbackOf(c) == None && CallbackOf(c') == Some(IdAfter(t.draws))
        && t'.frameCallbacks == t.frameCallbacks[IdAfter(t.draws) := c.given]
        && t'.draws == t.draws + 1)
    || (CallbackOf(c).Some? && CallbackOf(c') == None
        && t'.frameCallbacks == t.frameCallbacks - {CallbackOf(c).value})
  }

  predicate OtherwiseSame(t: Tables, t': Tables, c': CameraState) {
    && t'.cameras == (if c'.pc.Dropped? then t.cameras - {c'.handle} else t.cameras)
    && t'.discoveryCallbacks == t.discoveryCallbacks
    && t'.discoveryRegs == t.discoveryRegs
    && t.draws <= t'.draws <= t.draws + 1
  }

  lemma QueueOneMore(slots: seq<Id>, k: nat, cb: Id)
    requires k < |slots|
    ensures Pairs(slots[..k + 1], cb) == Pairs(slots[..k], cb) + [(slots[k], cb)]
  {
  }

  /** Everything one call does, in terms of what the camera holds. */
  predicate Effect(t: Tables, c: CameraState, t': Tables, c': CameraState) {
    && Shaped(c') && c'.handle == c.handle && c'.given == c.given && c'.buffers == c.buffers
    && SlotsEffect(t, c, t', c')
    && ActiveEffect(t, t', c')
    && CallbackEffect(t, c, t', c')
    && OtherwiseSame(t, t', c')
    && (c'.pc.Dropped? <==> c.pc.Closing?)
  }

  predicate StepHasEffect(t: Tables, c: CameraState, a: Answer)
    requires Busy(c) && Shaped(c)
  {
    var (t', r) := Serve(t, Next(c), a);
    Effect(t, c, t', Advance(c, r))
  }

  lemma OutsideSession(t: Tables, c: CameraState, a: Answer)
    requires Busy(c) && Shaped(c) && Holds(t, c)
    requires !c.pc.Within?
    ensures StepHasEffect(t, c, a)
  {
  }

  lemma WhileAnnouncing(t: Tables, c: CameraState, a: Answer)
    requires Busy(c) && Shaped(c) && Holds(t, c)
    requires c.pc.Within? && c.pc.stage.Announcing?
    ensures StepHasEffect(t, c, a)
  {
  }

  lemma WhileStarting(t: Tables, c: CameraState, a: Answer)
    requires Busy(c) && Shaped(c) && Holds(t, c)
    requires c.pc.Within? && c.pc.stage.Starting?
    ensures StepHasEffect(t, c, a)
  {
    assert Pairs(c.pc.s.slots[..0], c.pc.s.callbackId) == [];
  }

  lemma QueueingFails(t: Tables, c: CameraState, a: Answer)
    requires Busy(c) && Shaped(c) && Holds(t, c)
    requires c.pc.Within? && c.pc.stage.Queueing? && a.fail.Some?
    ensures StepHasEffect(t, c, a)
  {
    assert t.active == t.active[c.handle := Queued(c)];
  }

  lemma QueueingSucceeds(t: Tables, c: CameraState, a: Answer)
    requires Busy(c) && Shaped(c) && Holds(t, c)
    requires c.pc.Within? && c.pc.stage.Queueing? && a.fail.None?
    ensures StepHasEffect(t, c, a)
  {
    var s, k := c.pc.s, c.pc.stage.queued;
    QueueOneMore(s.slots, k, s.callbackId);
    assert s.slots[..|s.slots|] == s.slots;
  }

  lemma WhileLive(t: Tables, c: CameraState, a: Answer)
    requires Busy(c) && Shaped(c) && Holds(t, c)
    requires c.pc.Within? && (c.pc.stage.Acquiring? || c.pc.stage.Halting?)
    ensures StepHasEffect(t, c, a)
  {
    assert t.active == t.active[c.handle := Queued(c)];
  }

  lemma WhileTearingDown(t: Tables, c: CameraState, a: Answer)
    requires Busy(c) && Shaped(c) && Holds(t, c)
    requires c.pc.Within?
    requires c.pc.stage.Ending? || c.pc.stage.Flushing? || c.pc.stage.Revoking? || c.pc.stage.Uninstalling?
    ensures StepHasEffect(t, c, a)
  {
  }

  /** The effect of one port call, whatever the environment answers. */
  lemma StepEffect(t: Tables, c: CameraState, a: Answer)
    requires Busy(c) && Shaped(c) && Holds(t, c)
    ensures StepHasEffect(t, c, a)
  {
    match c.pc
    case Within(_, stage) =>
      match stage {
        case Announcing(_) => WhileAnnouncing(t, c, a);
        case Starting => WhileStarting(t, c, a);
        case Queueing(_) => if a.fail.Some? { QueueingFails(t, c, a); } else { QueueingSucceeds(t, c, a); }
        case Acquiring => WhileLive(t, c, a);
        case Halting(_) => WhileLive(t, c, a);
        case _ => WhileTearingDown(t, c, a);
      }
    case _ => OutsideSession(t, c, a);
  }
}
