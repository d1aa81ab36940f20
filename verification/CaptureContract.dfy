/** `start_capture`, `stop_capture` and `drop` of one camera on the fake:
    the tables are always the ones found plus what the camera holds, so every
    way out of a method either holds a full session or restores the tables. */
module CaptureContract {
  import opened Port
  import opened CameraProgram
  import opened FakeModel
  import opened CameraEffect
  import opened TableInvariant

  function Listing(slots: seq<Id>, h: Id): map<Id, Id> {
    map s | s in slots :: h
  }

  /** The camera holds nothing, and every listed id was issued. */
  predicate Unclaimed(base: Tables, h: Id) {
    && h !in base.active
    && (forall s <- base.announced :: s <= base.draws && base.announced[s] != h)
    && (forall cb <- base.frameCallbacks :: cb <= base.draws)
  }

  predicate FreshSince(base: Tables, t: Tables, id: Id) {
    base.draws < id <= t.draws
  }

  /** `base` plus what the camera holds. */
  function Plus(base: Tables, c: CameraState, draws: nat): Tables
    requires Shaped(c)
  {
    base.(cameras := if c.pc.Dropped? then base.cameras - {c.handle} else base.cameras,
          announced := base.announced + Listing(SlotsOf(c), c.handle),
          active := if LiveOf(c).Some? then base.active[c.handle := Queued(c)] else base.active,
          frameCallbacks := if CallbackOf(c).Some? then base.frameCallbacks[CallbackOf(c).value := c.given]
                            else base.frameCallbacks,
          draws := draws)
  }

  predicate Primed(base: Tables, t: Tables, c: CameraState) {
    && Shaped(c) && Unclaimed(base, c.handle)
    && SlotsPrimed(base, t.announced, SlotsOf(c), c.handle, t.draws)
    && (CallbackOf(c).Some? ==> FreshSince(base, t, CallbackOf(c).value))
    && base.draws <= t.draws
    && t == Plus(base, c, t.draws)
  }

  lemma PrimedHolds(base: Tables, t: Tables, c: CameraState)
    requires Primed(base, t, c)
    ensures Holds(t, c)
  {
  }

  /** The slots listed are those found and the camera's own fresh ones. */
  predicate SlotsPrimed(base: Tables, announced: map<Id, Id>, slots: seq<Id>, h: Id, draws: nat) {
    && Distinct(slots) && (forall s <- slots :: base.draws < s <= draws)
    && announced == base.announced + Listing(slots, h)
  }

  lemma ListingGains(base: Tables, announced: map<Id, Id>, slots: seq<Id>, h: Id, n: nat)
    requires SlotsPrimed(base, announced, slots, h, n) && base.draws <= n
    ensures SlotsPrimed(base, announced[n + 1 := h], slots + [n + 1], h, n + 1)
  {
    var slots' := slots + [n + 1];
    assert Distinct(slots') by {
      forall i, j | 0 <= i < j < |slots'|
        ensures slots'[i] != slots'[j]
      {
        if j == |slots| {
          assert slots[i] in slots;
        }
      }
    }
    assert forall s :: s in slots' <==> s in slots || s == n + 1;
    assert Listing(slots', h) == Listing(slots, h)[n + 1 := h];
    assert announced[n + 1 := h] == base.announced + Listing(slots', h);
  }

  lemma ListingLoses(base: Tables, announced: map<Id, Id>, slots: seq<Id>, h: Id, n: nat)
    requires Unclaimed(base, h) && SlotsPrimed(base, announced, slots, h, n)
    ensures SlotsPrimed(base, OwnedByOthers(announced, h), [], h, n)
  {
    assert OwnedByOthers(announced, h) == base.announced;
    assert Listing([], h) == map[];
  }

  lemma SlotsStayPrimed(base: Tables, t: Tables, c: CameraState, t': Tables, c': CameraState)
    requires Unclaimed(base, c.handle)
    requires SlotsPrimed(base, t.announced, SlotsOf(c), c.handle, t.draws)
    requires SlotsEffect(t, c, t', c') && base.draws <= t.draws <= t'.draws < U64
    ensures SlotsPrimed(base, t'.announced, SlotsOf(c'), c.handle, t'.draws)
  {
    var h, slots, slots' := c.handle, SlotsOf(c), SlotsOf(c');
    if slots' == slots && t'.announced == t.announced {
      assert SlotsPrimed(base, t.announced, slots, h, t'.draws);
    } else if slots' == [] && t'.announced == OwnedByOthers(t.announced, h) {
      ListingLoses(base, t.announced, slots, h, t.draws);
      assert SlotsPrimed(base, t'.announced, [], h, t'.draws);
    } else {
      UnwrappedId(t.draws);
      ListingGains(base, t.announced, slots, h, t.draws);
    }
  }

  lemma CallbackStaysPrimed(base: Tables, t: Tables, c: CameraState, t': Tables, c': CameraState)
    requires Primed(base, t, c) && CallbackEffect(t, c, t', c') && c'.given == c.given
    requires t.draws <= t'.draws < U64
    ensures CallbackOf(c').Some? ==> FreshSince(base, t', CallbackOf(c').value)
    ensures t'.frameCallbacks == if CallbackOf(c').Some?
                                 then base.frameCallbacks[CallbackOf(c').value := c'.given]
                                 else base.frameCallbacks
  {
    if t'.draws == t.draws + 1 {
      UnwrappedId(t.draws);
    }
  }

  lemma EffectKeepsPrimed(base: Tables, t: Tables, c: CameraState, t': Tables, c': CameraState)
    requires Primed(base, t, c) && Effect(t, c, t', c') && !c.pc.Dropped? && t'.draws < U64
    ensures Primed(base, t', c')
  {
    SlotsStayPrimed(base, t, c, t', c');
    CallbackStaysPrimed(base, t, c, t', c');
    assert t'.active == if LiveOf(c').Some? then base.active[c.handle := Queued(c')] else base.active;
  }

  lemma StepKeepsPrimed(base: Tables, t: Tables, c: CameraState, a: Answer)
    requires Busy(c) && Primed(base, t, c) && Serve(t, Next(c), a).0.draws < U64
    ensures var (t', r) := Serve(t, Next(c), a);
      Primed(base, t', Advance(c, r))
  {
    var (t', r) := Serve(t, Next(c), a);
    PrimedHolds(base, t, c);
    StepEffect(t, c, a);
    assert Effect(t, c, t', Advance(c, r));
    EffectKeepsPrimed(base, t, c, t', Advance(c, r));
  }

  // --- Running a method to its end --------------------------------------

  lemma {:induction false} DriveDraws(f: Fake, c: CameraState)
    requires Shaped(c)
    ensures f.tables.draws <= Drive(f, c).0.tables.draws
    decreases Remaining(c)
  {
    if Busy(c) {
      var (f', r) := Apply(f, Next(c));
      AdvanceProgresses(c, r);
      ServeDraws(f.tables, Next(c), AnswerOf(f.config, Next(c)).1);
      DriveDraws(f', Advance(c, r));
    }
  }

  /** Whatever calls fail, the tables at the end of a method are the ones
      found plus what the camera then holds. */
  lemma {:induction false} DriveKeepsPrimed(base: Tables, f: Fake, c: CameraState)
    requires Primed(base, f.tables, c) && Drive(f, c).0.tables.draws < U64
    ensures Primed(base, Drive(f, c).0.tables, Drive(f, c).1)
    decreases Remaining(c)
  {
    if Busy(c) {
      var (f', r) := Apply(f, Next(c));
      var a := AnswerOf(f.config, Next(c)).1;
      assert (f'.tables, r) == Serve(f.tables, Next(c), a);
      AdvanceProgresses(c, r);
      DriveDraws(f', Advance(c, r));
      StepKeepsPrimed(base, f.tables, c, a);
      DriveKeepsPrimed(base, f', Advance(c, r));
    }
  }

  /** The first error among the replies of a method. */
  function FirstError(rs: seq<Reply>): Option<VmbError> {
    if rs == [] then None
    else if rs[0].Failed? then Some(rs[0].error)
    else FirstError(rs[1..])
  }

  predicate InStart(c: CameraState) {
    c.pc.Sizing? || c.pc.Installing?
    || (c.pc.Within?
        && (c.pc.stage.Announcing? || c.pc.stage.Starting? || c.pc.stage.Queueing? || c.pc.stage.Acquiring?))
  }

  predicate InUnwind(c: CameraState, e: VmbError) {
    c.pc.Within? && (c.pc.stage.Ending? || c.pc.stage.Flushing? || c.pc.stage.Revoking? || c.pc.stage.Uninstalling?)
    && c.pc.stage.why == Unwinding(e)
  }

  lemma {:induction false} UnwindReturnsItsError(f: Fake, c: CameraState, e: VmbError)
    requires Shaped(c) && InUnwind(c, e)
    ensures Drive(f, c).1.pc.Ready? && Drive(f, c).1.outcome == Err(e) && Drive(f, c).1.session.None?
    decreases Remaining(c)
  {
    var (f', r) := Apply(f, Next(c));
    AdvanceProgresses(c, r);
    if c.pc.stage.Uninstalling? {
      assert !Busy(Advance(c, r));
    } else {
      UnwindReturnsItsError(f', Advance(c, r), e);
    }
  }

  /** What a call inside `start_capture` can lead to. */
  lemma StartStep(f: Fake, c: CameraState)
    requires Shaped(c) && InStart(c)
    ensures var r := Apply(f, Next(c)).1;
      var c' := Advance(c, r);
      if r.Failed? then InUnwind(c', r.error) || (c'.pc.Ready? && c'.session.None? && c'.outcome == Err(r.error))
      else InStart(c') || (c'.pc.Ready? && c'.session.Some? && c'.outcome == Ok)
  {
  }

  /** `start_capture` returns Ok exactly when every call succeeded, and
      otherwise the error of the first call that failed. */
  lemma {:induction false} StartOutcome(f: Fake, c: CameraState)
    requires Shaped(c) && InStart(c)
    ensures var (d, rs) := (Drive(f, c).1, Replies(f, c));
      && d.pc.Ready?
      && d.outcome == (match FirstError(rs) case None => Ok case Some(e) => Err(e))
      && (d.session.Some? <==> FirstError(rs).None?)
    decreases Remaining(c)
  {
    var (f', r) := Apply(f, Next(c));
    var c' := Advance(c, r);
    AdvanceProgresses(c, r);
    StartStep(f, c);
    var rs := Replies(f, c);
    assert rs == [r] + Replies(f', c');
    assert rs[0] == r && rs[1..] == Replies(f', c');
    if r.Failed? && InUnwind(c', r.error) {
      UnwindReturnsItsError(f', c', r.error);
    } else if InStart(c') {
      StartOutcome(f', c');
    }
  }

  // --- Reading the tables off a primed camera ---------------------------

  lemma RestIsBase(base: Tables, t: Tables, c: CameraState)
    requires Primed(base, t, c) && c.session.None? && (c.pc.Ready? || c.pc.Dropped?)
    ensures t == base.(cameras := if c.pc.Dropped? then base.cameras - {c.handle} else base.cameras,
                       draws := t.draws)
  {
    assert Listing([], c.handle) == map[];
    assert base.announced + map[] == base.announced;
  }

  lemma UnclaimedIsPrimed(t: Tables, c: CameraState)
    requires Shaped(c) && c.session.None? && Unclaimed(t, c.handle)
    requires c.pc.Ready? || c.pc.Sizing? || c.pc.Closing?
    ensures Primed(t, t, c)
  {
    assert Listing([], c.handle) == map[];
    assert t.announced + map[] == t.announced;
  }

  lemma BeginKeepsPrimed(base: Tables, t: Tables, c: CameraState)
    requires c.pc.Ready? && Primed(base, t, c)
    ensures Primed(base, t, BeginStop(c)) && Primed(base, t, BeginDrop(c))
  {
    BeginHoldsSame(c, 0, 0);
    if c.session.Some? {
      assert Queued(BeginStop(c)) == Queued(c);
      assert Queued(BeginDrop(c)) == Queued(c);
    }
  }

  /** What `start_capture` leaves behind when it returns Ok: the session's
      slots are fresh, all announced, and all queued in announce order under
      one installed callback. */
  predicate FullyStarted(t: Tables, t': Tables, h: Id, s: Session, buffers: nat, closure: Closure) {
    && |s.slots| == buffers && Distinct(s.slots)
    && (forall x <- s.slots :: FreshSince(t, t', x)) && FreshSince(t, t', s.callbackId)
    && t' == t.(announced := t.announced + Listing(s.slots, h),
                active := t.active[h := Pairs(s.slots, s.callbackId)],
                frameCallbacks := t.frameCallbacks[s.callbackId := closure],
                draws := t'.draws)
  }

  lemma SessionIsFullyStarted(base: Tables, t: Tables, c: CameraState)
    requires Primed(base, t, c) && c.session.Some?
    ensures FullyStarted(base, t, c.handle, c.session.value, c.buffers, c.given)
  {
    var s := c.session.value;
    assert s.slots[..|s.slots|] == s.slots;
    assert Queued(c) == Pairs(s.slots, s.callbackId);
  }

  // --- The contracts ----------------------------------------------------

  /** The method entered by `c` on the fake `f` returns as `c'` on `f'`, with
      the id counter not yet wrapped. */
  predicate Returns(f: Fake, c: CameraState, f': Fake, c': CameraState)
    requires Shaped(c)
  {
    Drive(f, c) == (f', c') && f'.tables.draws < U64
  }

  /** What `start_capture` makes of an idle camera `c` on tables `t`, given the
      first error a call returned: the adapter fully primed and the session
      stored, or that error, no session, and the tables as found. */
  predicate AllOrNothing(t: Tables, c: CameraState, t': Tables, c': CameraState, first: Option<VmbError>) {
    && c'.pc.Ready?
    && match first
       case None =>
         c'.outcome == Ok && c'.session.Some?
         && FullyStarted(t, t', c.handle, c'.session.value, c'.buffers, c'.given)
       case Some(e) =>
         c'.outcome == Err(e) && c'.session.None? && t' == t.(draws := t'.draws)
  }

  /** All or nothing: for every number of buffers and every choice of failing
      calls. */
  lemma StartAllOrNothing(f: Fake, c: CameraState, buffers: nat, closure: Closure, f': Fake, c': CameraState)
    requires c.pc.Ready? && c.session.None? && Unclaimed(f.tables, c.handle)
    requires Returns(f, BeginStart(c, buffers, closure), f', c')
    ensures AllOrNothing(f.tables, c, f'.tables, c', FirstError(Replies(f, BeginStart(c, buffers, closure))))
    ensures c'.buffers == buffers && c'.given == closure
  {
    var c0 := BeginStart(c, buffers, closure);
    UnclaimedIsPrimed(f.tables, c0);
    DriveKeepsPrimed(f.tables, f, c0);
    StartOutcome(f, c0);
    if c'.session.Some? {
      SessionIsFullyStarted(f.tables, f'.tables, c');
    } else {
      RestIsBase(f.tables, f'.tables, c');
    }
  }

  lemma {:induction false} TeardownEnds(f: Fake, c: CameraState)
    requires Shaped(c) && (c.pc.Closing? || (c.pc.Within? && !InStart(c) && !c.pc.stage.why.Unwinding?))
    ensures var d := Drive(f, c).1;
      && d.session.None?
      && (if c.pc.Within? && c.pc.stage.why.Stopping? then d.pc.Ready? && d.outcome == Ok else d.pc.Dropped?)
    decreases Remaining(c)
  {
    var (f', r) := Apply(f, Next(c));
    AdvanceProgresses(c, r);
    var c' := Advance(c, r);
    if Busy(c') {
      TeardownEnds(f', c');
    }
  }

  /** An idle camera on the tables `base`, up to the ids drawn since. */
  predicate RestsOn(base: Tables, t: Tables, c: CameraState) {
    c.pc.Ready? && c.session.None? && t == base.(draws := t.draws)
  }

  /** Whatever the camera's session holds on top of `base`, `stop_capture`
      returns Ok with the tables back at `base`, even when AcquisitionStop
      fails. */
  lemma StopRestores(base: Tables, f: Fake, c: CameraState, f': Fake, c': CameraState)
    requires c.pc.Ready? && Primed(base, f.tables, c)
    requires Returns(f, BeginStop(c), f', c')
    ensures RestsOn(base, f'.tables, c') && c'.outcome == Ok
  {
    BeginKeepsPrimed(base, f.tables, c);
    DriveKeepsPrimed(base, f, BeginStop(c));
    if c.session.Some? {
      TeardownEnds(f, BeginStop(c));
    }
    RestIsBase(base, f'.tables, c');
  }

  /** The camera is gone from the tables `base`. */
  predicate GoneFrom(base: Tables, t: Tables, c: CameraState) {
    c.pc.Dropped? && t == base.(cameras := base.cameras - {c.handle}, draws := t.draws)
  }

  /** Dropping a camera, capturing or not, removes it and everything it held. */
  lemma DropRestores(base: Tables, f: Fake, c: CameraState, f': Fake, c': CameraState)
    requires c.pc.Ready? && Primed(base, f.tables, c)
    requires Returns(f, BeginDrop(c), f', c')
    ensures GoneFrom(base, f'.tables, c')
  {
    BeginKeepsPrimed(base, f.tables, c);
    DriveKeepsPrimed(base, f, BeginDrop(c));
    TeardownEnds(f, BeginDrop(c));
    RestIsBase(base, f'.tables, c');
  }

  /** Start followed by stop is the identity on the tables whether or not the
      start succeeded, and a second stop makes no call at all. */
  lemma StartStopRoundTrip(f: Fake, c: CameraState, buffers: nat, closure: Closure,
                           f1: Fake, c1: CameraState, f2: Fake, c2: CameraState)
    requires c.pc.Ready? && c.session.None? && Unclaimed(f.tables, c.handle)
    requires Drive(f, BeginStart(c, buffers, closure)) == (f1, c1)
    requires c1.pc.Ready? && Shaped(c1) && Returns(f1, BeginStop(c1), f2, c2)
    ensures RestsOn(f.tables, f2.tables, c2) && Returns(f2, BeginStop(c2), f2, c2)
  {
    var c0 := BeginStart(c, buffers, closure);
    DriveDraws(f1, BeginStop(c1));
    UnclaimedIsPrimed(f.tables, c0);
    DriveKeepsPrimed(f.tables, f, c0);
    StopRestores(f.tables, f1, c1, f2, c2);
  }
}
