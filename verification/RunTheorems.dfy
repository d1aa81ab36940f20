/** What the table invariant gives for whole runs over the fake. */
module RunTheorems {
  import opened Port
  import opened CameraProgram
  import opened FakeModel
  import opened CameraEffect
  import opened Domain
  import opened FakeWorld
  import opened TableInvariant
  import CaptureContract

  // --- No leaks ---------------------------------------------------------

  lemma NoClientsNoTables(t: Tables, d: State)
    requires TablesMatch(t, d)
    requires forall h <- d.cams :: d.cams[h].pc.Ready? && d.cams[h].session.None?
    ensures t.announced == map[] && t.active == map[] && t.frameCallbacks == map[]
    ensures d.cams == map[] ==> t.cameras == map[]
    ensures d.regs == map[] ==> t.discoveryCallbacks == map[] && t.discoveryRegs == map[]
  {
    forall s <- t.announced
      ensures t.announced[s] in d.cams && s in SlotsOf(d.cams[t.announced[s]])
    {
      assert s in Slots(d.cams)[t.announced[s]];
    }
    forall h <- t.active
      ensures h in d.cams && LiveOf(d.cams[h]).Some?
    {
      assert h in Captures(d.cams);
    }
  }

  /** After any run at whose end every camera and every registration has been
      dropped, no resource table holds anything, whatever calls failed. */
  lemma EverythingDroppedNothingLeft(xs: seq<Step>)
    requires Run(xs).t.draws < U64
    requires Run(xs).d.cams == map[] && Run(xs).d.regs == map[]
    ensures Run(xs).t == NO_TABLES.(draws := Run(xs).t.draws)
  {
    TablesAlwaysMatch(xs);
    NoClientsNoTables(Run(xs).t, Run(xs).d);
  }

  /** A run in which no camera is capturing or in a method leaves no slot, no
      capture and no callback behind, however many starts failed. */
  lemma IdleCamerasHoldNothing(xs: seq<Step>)
    requires Run(xs).t.draws < U64
    requires forall h <- Run(xs).d.cams :: Run(xs).d.cams[h].pc.Ready? && Run(xs).d.cams[h].session.None?
    ensures Run(xs).t.announced == map[] && Run(xs).t.active == map[] && Run(xs).t.frameCallbacks == map[]
  {
    TablesAlwaysMatch(xs);
    NoClientsNoTables(Run(xs).t, Run(xs).d);
  }

  /** An idle camera of any run can be started under the all-or-nothing
      contract: the tables list nothing under its handle. */
  lemma IdleCameraIsUnclaimed(t: Tables, d: State, h: Id)
    requires TablesMatch(t, d) && h in d.cams && d.cams[h].pc.Ready? && d.cams[h].session.None?
    ensures CaptureContract.Unclaimed(t, h)
  {
    forall s <- t.announced
      ensures s <= t.draws && t.announced[s] != h
    {
      assert s in t.announced.Keys;
      assert s in Slots(d.cams)[t.announced[s]];
    }
    assert forall cb <- t.frameCallbacks :: cb in t.frameCallbacks.Keys;
  }

  // --- No interference --------------------------------------------------

  lemma OthersSlotsUntouched(t: Tables, c: CameraState, t': Tables, c': CameraState, other: Id)
    requires SlotsEffect(t, c, t', c') && other != c.handle
    requires IdAfter(t.draws) !in t.announced
    ensures forall s :: (s in t'.announced && t'.announced[s] == other)
                   <==> (s in t.announced && t.announced[s] == other)
  {
  }

  lemma OthersCallbackUntouched(t: Tables, c: CameraState, t': Tables, c': CameraState, cb: Id)
    requires CallbackEffect(t, c, t', c') && CallbackOf(c) != Some(cb)
    requires IdAfter(t.draws) !in t.frameCallbacks && cb in t.frameCallbacks
    ensures cb in t'.frameCallbacks && t'.frameCallbacks[cb] == t.frameCallbacks[cb]
  {
  }

  lemma NextIdIsUnlisted(t: Tables)
    requires KeysOk(t) && t.draws + 1 < U64
    ensures IdAfter(t.draws) != 0 && IdAfter(t.draws) !in t.cameras && IdAfter(t.draws) !in t.announced
    ensures IdAfter(t.draws) !in t.frameCallbacks && IdAfter(t.draws) !in t.discoveryCallbacks
    ensures IdAfter(t.draws) !in t.discoveryRegs
  {
    UnwrappedId(t.draws);
    assert t.draws + 1 !in t.cameras.Keys + t.announced.Keys + t.frameCallbacks.Keys
                         + t.discoveryCallbacks.Keys + t.discoveryRegs.Keys;
  }

  lemma CallbacksDiffer(d: State, h: Id, other: Id, callbacks: map<Id, Closure>)
    requires CallbacksOk(callbacks, Callbacks(d.cams)) && h in d.cams && other in d.cams && h != other
    ensures CallbackOf(d.cams[other]).Some? ==> CallbackOf(d.cams[h]) != CallbackOf(d.cams[other])
  {
    var held := Callbacks(d.cams);
    if CallbackOf(d.cams[h]).Some? && CallbackOf(d.cams[other]).Some? {
      assert held[h].0 == CallbackOf(d.cams[h]).value;
      assert held[other].0 == CallbackOf(d.cams[other]).value;
    }
  }

  /** A call of one camera leaves every other camera's entries alone. */
  lemma OthersUntouched(t: Tables, d: State, h: Id, a: Answer, other: Id)
    requires TablesMatch(t, d) && CanCall(d, Cam(h)) && other in d.cams && other != h
    requires t.draws + 1 < U64
    ensures var t' := Serve(t, CallOf(d, Cam(h)), a).0;
      var cb := CallbackOf(d.cams[other]);
      && (other in t'.cameras && t'.cameras[other] == t.cameras[other])
      && (forall s :: (s in t'.announced && t'.announced[s] == other)
                 <==> (s in t.announced && t.announced[s] == other))
      && (other in t'.active <==> other in t.active)
      && (other in t.active ==> t'.active[other] == t.active[other])
      && (cb.Some? ==> cb.value in t'.frameCallbacks && t'.frameCallbacks[cb.value] == d.cams[other].given)
  {
    var c, cb := d.cams[h], CallbackOf(d.cams[other]);
    var (t', r) := Serve(t, Next(c), a);
    var c' := Advance(c, r);
    TablesHold(t, d, h);
    TablesHold(t, d, other);
    StepEffect(t, c, a);
    assert Effect(t, c, t', c');
    NextIdIsUnlisted(t);
    OthersSlotsUntouched(t, c, t', c', other);
    CallbacksDiffer(d, h, other, t.frameCallbacks);
    if cb.Some? {
      OthersCallbackUntouched(t, c, t', c', cb.value);
    }
  }

  // --- Delivery ---------------------------------------------------------

  /** At every point of every run `deliver_frame` hands out a frame exactly
      when the camera has a live capture with a queued slot, and the closure
      it invokes is the one given to that camera's latest `start_capture`. */
  lemma DeliverIff(t: Tables, d: State, h: Id)
    requires TablesMatch(t, d)
    ensures DeliverFrame(t, h).1.Some? <==> h in d.cams && LiveOf(d.cams[h]).Some? && LiveOf(d.cams[h]).value > 0
    ensures DeliverFrame(t, h).1.Some? ==> h in d.cams && DeliverFrame(t, h).1.value.closure == d.cams[h].given
  {
    if h in d.cams && LiveOf(d.cams[h]).Some? {
      TablesHold(t, d, h);
      assert t.active[h] == Captures(d.cams)[h];
    }
  }

  /** Between methods that is: exactly when the camera has a session with at
      least one slot. */
  lemma DeliverIffSession(xs: seq<Step>, h: Id)
    requires Run(xs).t.draws < U64 && Quiescent(Run(xs).d)
    ensures var (d, out) := (Run(xs).d, DeliverFrame(Run(xs).t, h).1);
      && (out.Some? <==> h in d.cams && d.cams[h].session.Some? && d.cams[h].session.value.slots != [])
      && (out.Some? ==> out.value.h == h && out.value.closure == d.cams[h].given)
  {
    TablesAlwaysMatch(xs);
    DeliverIff(Run(xs).t, Run(xs).d, h);
  }

  // --- Ids and frame ids ------------------------------------------------

  predicate TraceIncreasing(trace: seq<Entry>, draws: nat) {
    && (forall i :: 0 <= i < |trace| && trace[i].reply.Got? ==> 1 <= trace[i].reply.id <= draws)
    && (forall i, j :: 0 <= i < j < |trace| && trace[i].reply.Got? && trace[j].reply.Got?
          ==> trace[i].reply.id < trace[j].reply.id)
  }

  predicate FramesIncreasing(delivered: seq<Delivery>, draws: nat) {
    && (forall i :: 0 <= i < |delivered| ==> 1 <= delivered[i].frameId <= draws)
    && (forall i, j :: 0 <= i < j < |delivered| ==> delivered[i].frameId < delivered[j].frameId)
  }

  predicate NoIdIsAFrame(trace: seq<Entry>, delivered: seq<Delivery>) {
    forall i, j :: 0 <= i < |trace| && trace[i].reply.Got? && 0 <= j < |delivered|
      ==> trace[i].reply.id != delivered[j].frameId
  }

  /** Ids handed out and frame ids delivered are non-zero, strictly increase
      in the order they are issued, and never coincide. */
  predicate Increasing(w: World) {
    && TraceIncreasing(w.d.trace, w.t.draws)
    && FramesIncreasing(w.delivered, w.t.draws)
    && NoIdIsAFrame(w.d.trace, w.delivered)
  }

  lemma TraceGrows(trace: seq<Entry>, delivered: seq<Delivery>, x: Entry, n: nat, n': nat)
    requires TraceIncreasing(trace, n) && FramesIncreasing(delivered, n) && NoIdIsAFrame(trace, delivered)
    requires n <= n' && (x.reply.Got? ==> x.reply.id == n + 1 == n')
    ensures TraceIncreasing(trace + [x], n') && FramesIncreasing(delivered, n')
    ensures NoIdIsAFrame(trace + [x], delivered)
  {
  }

  lemma FramesGrow(trace: seq<Entry>, delivered: seq<Delivery>, x: Delivery, n: nat)
    requires TraceIncreasing(trace, n) && FramesIncreasing(delivered, n) && NoIdIsAFrame(trace, delivered)
    requires x.frameId == n + 1
    ensures TraceIncreasing(trace, n + 1) && FramesIncreasing(delivered + [x], n + 1)
    ensures NoIdIsAFrame(trace, delivered + [x])
  {
  }

  lemma CallIncreases(w: World, who: Actor, a: Answer)
    requires Increasing(w) && CanCall(w.d, who) && Serve(w.t, CallOf(w.d, who), a).0.draws < U64
    ensures Increasing(Take(w, Domain(Invoke(who, a))))
  {
    var (t', r) := Serve(w.t, CallOf(w.d, who), a);
    ReplyIdIsNext(w.t, CallOf(w.d, who), a);
    TraceGrows(w.d.trace, w.delivered, Entry(who, CallOf(w.d, who), r), w.t.draws, t'.draws);
  }

  lemma DeliveryIncreases(w: World, h: Id)
    requires Increasing(w) && DeliverFrame(w.t, h).0.draws < U64
    ensures Increasing(Take(w, Deliver(h)))
  {
    var (t', out) := DeliverFrame(w.t, h);
    if out.Some? {
      UnwrappedId(w.t.draws);
      FramesGrow(w.d.trace, w.delivered, out.value, w.t.draws);
    }
  }

  lemma EnteringIncreases(w: World, e: Event)
    requires Increasing(w)
    ensures Increasing(w.(d := Enter(w.d, e)))
  {
  }

  /** Every id of every kind ever issued in a run is distinct from every other
      and from every delivered frame id; frame ids strictly increase across
      all cameras. */
  lemma {:induction false} IdsAlwaysIncrease(xs: seq<Step>)
    requires Run(xs).t.draws < U64
    ensures Increasing(Run(xs))
  {
    if xs != [] {
      var w, x := Run(xs[..|xs| - 1]), xs[|xs| - 1];
      StepDraws(w, x);
      IdsAlwaysIncrease(xs[..|xs| - 1]);
      match x {
        case Domain(Invoke(who, a)) => if CanCall(w.d, who) { CallIncreases(w, who, a); }
        case Domain(e) => EnteringIncreases(w, e);
        case Deliver(h) => DeliveryIncreases(w, h);
      }
    }
  }

  predicate Unlisted(t: Tables, id: Id) {
    && id !in t.cameras && id !in t.announced && id !in t.frameCallbacks
    && id !in t.discoveryCallbacks && id !in t.discoveryRegs
  }

  /** At every point of every run the id the next draw issues is not zero and
      is no key of any table, so no insert overwrites an entry. */
  lemma NoInsertOverwrites(w: World)
    requires Reachable(w) && w.t.draws + 1 < U64
    ensures IdAfter(w.t.draws) != 0 && Unlisted(w.t, IdAfter(w.t.draws))
  {
    var xs :| Run(xs) == w;
    TablesAlwaysMatch(xs);
    NextIdIsUnlisted(w.t);
  }

  // --- Discovery --------------------------------------------------------

  /** At every step of every run, midway through a register or a drop too, each
      registration's callback is installed and is the closure it was given. */
  lemma RegisteredCallbacksInstalled(w: World, r: Id)
    requires Reachable(w) && r in w.t.discoveryRegs
    ensures var cb := w.t.discoveryRegs[r];
      cb in w.t.discoveryCallbacks && cb in w.d.regs && w.t.discoveryCallbacks[cb] == w.d.regs[cb].closure
  {
    var xs :| Run(xs) == w;
    TablesAlwaysMatch(xs);
  }

  /** With no register or drop midway, the registrations are in bijection with
      the installed callbacks, so driving every installed callback reaches
      every live registration's closure once and nothing else. */
  lemma DiscoveryBijection(xs: seq<Step>)
    requires Run(xs).t.draws < U64 && Quiescent(Run(xs).d)
    ensures var (t, d) := (Run(xs).t, Run(xs).d);
      && t.discoveryRegs.Values == t.discoveryCallbacks.Keys == d.regs.Keys
      && (forall r <- t.discoveryRegs, r' <- t.discoveryRegs ::
            t.discoveryRegs[r] == t.discoveryRegs[r'] ==> r == r')
      && (forall cb <- d.regs :: t.discoveryCallbacks[cb] == d.regs[cb].closure)
  {
    TablesAlwaysMatch(xs);
    var (t, d) := (Run(xs).t, Run(xs).d);
    forall cb <- d.regs
      ensures cb in t.discoveryRegs.Values
    {
      assert HandleOf(d.regs[cb]).value in t.discoveryRegs;
    }
    forall r, r' | r in t.discoveryRegs && r' in t.discoveryRegs && t.discoveryRegs[r] == t.discoveryRegs[r']
      ensures r == r'
    {
      assert HandleOf(d.regs[t.discoveryRegs[r]]) == Some(r);
    }
  }

  /** So `emit_discovery`, which reads the callback table alone, invokes each
      live registration's closure exactly once and no other. */
  lemma EmitReachesLiveRegistrations(xs: seq<Step>, order: seq<Id>, invoked: seq<Closure>)
    requires Run(xs).t.draws < U64 && Quiescent(Run(xs).d)
    requires Emitted(Run(xs).t.discoveryCallbacks, order, invoked)
    ensures multiset(order) == multiset(Run(xs).d.regs.Keys)
    ensures forall i :: 0 <= i < |order| ==>
      order[i] in Run(xs).d.regs && invoked[i] == Run(xs).d.regs[order[i]].closure
  {
    DiscoveryBijection(xs);
    assert forall i :: 0 <= i < |order| ==> order[i] in Run(xs).d.regs.Keys;
  }

  // --- A start on a capturing camera ------------------------------------

  /** In every run, a `start_capture` on a capturing camera makes no call,
      touches no table and no other client, keeps the session with the closure
      it delivers to, and is answered by `CaptureAlreadyRunning`. */
  lemma RunningStartChangesNothing(xs: seq<Step>, h: Id, buffers: nat, closure: Closure)
    requires var d := Run(xs).d;
      h in d.cams && d.cams[h].pc.Ready? && d.cams[h].session.Some?
    ensures var (w, w') := (Run(xs), Run(xs + [Step.Domain(Start(h, buffers, closure))]));
      w' == w.(d := w.d.(cams := w.d.cams[h := w.d.cams[h].(outcome := Err(CaptureAlreadyRunning))]))
  {
    var more := xs + [Step.Domain(Start(h, buffers, closure))];
    assert more[..|more| - 1] == xs;
  }
}
