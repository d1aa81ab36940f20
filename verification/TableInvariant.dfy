/** At every step of every run the fake's tables are exactly the union of
    what the camera programs and subscriptions hold. */
module TableInvariant {
  import opened Port
  import opened CameraProgram
  import opened FakeModel
  import opened CameraEffect
  import opened Domain
  import opened FakeWorld

  predicate Distinct(s: seq<Id>) {
    forall i, j :: 0 <= i < j < |s| ==> s[i] != s[j]
  }

  // --- What the programs dictate ----------------------------------------

  function Slots(cams: map<Id, CameraState>): map<Id, seq<Id>> {
    map h | h in cams :: SlotsOf(cams[h])
  }

  /** The installed callback of every camera that has one, with the closure
      its `start_capture` was given. */
  function Callbacks(cams: map<Id, CameraState>): map<Id, (Id, Closure)> {
    map h | h in cams && CallbackOf(cams[h]).Some? :: (CallbackOf(cams[h]).value, cams[h].given)
  }

  /** The capture-table entry of every camera with a live capture. */
  function Captures(cams: map<Id, CameraState>): map<Id, seq<(Id, Id)>>
    requires AllShaped(cams)
  {
    map h | h in cams && LiveOf(cams[h]).Some? :: Queued(cams[h])
  }

  predicate AllShaped(cams: map<Id, CameraState>) {
    forall h <- cams :: Shaped(cams[h])
  }

  predicate CamerasOk(cameras: map<Id, string>, cams: map<Id, CameraState>) {
    && cameras.Keys == cams.Keys
    && AllShaped(cams)
    && forall h <- cams :: cams[h].handle == h && !cams[h].pc.Dropped?
  }

  /** The announced slots are the disjoint union of the cameras' slots, each
      listed under its camera. */
  predicate SlotsOk(announced: map<Id, Id>, slots: map<Id, seq<Id>>) {
    && (forall h <- slots :: Distinct(slots[h]))
    && (forall h <- slots :: forall s <- slots[h] :: s in announced && announced[s] == h)
    && (forall s <- announced :: announced[s] in slots && s in slots[announced[s]])
  }

  /** The installed callbacks are the disjoint union of the cameras' callbacks. */
  predicate CallbacksOk(callbacks: map<Id, Closure>, held: map<Id, (Id, Closure)>) {
    && (forall h <- held :: held[h].0 in callbacks && callbacks[held[h].0] == held[h].1)
    && (forall cb <- callbacks :: exists h :: h in held && held[h].0 == cb)
    && (forall h, h' :: h in held && h' in held && held[h].0 == held[h'].0 ==> h == h')
  }

  function HandleOf(g: Registration): Option<Id> {
    match g.phase
    case Subscribed(r) => Some(r)
    case Unregistering(r) => Some(r)
    case _ => None
  }

  predicate SubscriptionsOk(callbacks: map<Id, Closure>, registered: map<Id, Id>, regs: map<Id, Registration>) {
    && callbacks.Keys == regs.Keys
    && (forall cb <- regs :: callbacks[cb] == regs[cb].closure)
    && (forall cb <- regs ::
          HandleOf(regs[cb]).Some? ==>
            HandleOf(regs[cb]).value in registered && registered[HandleOf(regs[cb]).value] == cb)
    && (forall r <- registered :: registered[r] in regs && HandleOf(regs[registered[r]]) == Some(r))
  }

  /** Five sets of ids, all among the first `n` issued, no id in two of them. */
  predicate Apart(a: set<Id>, b: set<Id>, c: set<Id>, d: set<Id>, e: set<Id>, n: nat) {
    && a !! b && a !! c && a !! d && a !! e && b !! c && b !! d && b !! e && c !! d && c !! e && d !! e
    && (forall k <- a :: 1 <= k <= n) && (forall k <- b :: 1 <= k <= n) && (forall k <- c :: 1 <= k <= n)
    && (forall k <- d :: 1 <= k <= n) && (forall k <- e :: 1 <= k <= n)
  }

  /** Every key in every table was issued, and no id is used for two things. */
  predicate KeysOk(t: Tables) {
    Apart(t.cameras.Keys, t.announced.Keys, t.frameCallbacks.Keys,
          t.discoveryCallbacks.Keys, t.discoveryRegs.Keys, t.draws)
  }

  predicate CameraTablesOk(cameras: map<Id, string>, announced: map<Id, Id>, active: map<Id, seq<(Id, Id)>>,
                           callbacks: map<Id, Closure>, cams: map<Id, CameraState>) {
    && CamerasOk(cameras, cams)
    && SlotsOk(announced, Slots(cams))
    && active == Captures(cams)
    && CallbacksOk(callbacks, Callbacks(cams))
  }

  /** The tables are exactly what the clients dictate. */
  predicate TablesMatch(t: Tables, d: State) {
    && CameraTablesOk(t.cameras, t.announced, t.active, t.frameCallbacks, d.cams)
    && SubscriptionsOk(t.discoveryCallbacks, t.discoveryRegs, d.regs)
    && KeysOk(t)
  }

  lemma TablesHold(t: Tables, d: State, h: Id)
    requires TablesMatch(t, d) && h in d.cams
    ensures Holds(t, d.cams[h])
  {
    assert Slots(d.cams)[h] == SlotsOf(d.cams[h]);
    if CallbackOf(d.cams[h]).Some? {
      assert Callbacks(d.cams)[h] == (CallbackOf(d.cams[h]).value, d.cams[h].given);
    }
  }

  // --- Keys -------------------------------------------------------------

  lemma ApartGrows(a: set<Id>, b: set<Id>, c: set<Id>, d: set<Id>, e: set<Id>, n: nat)
    requires Apart(a, b, c, d, e, n)
    ensures Apart(a + {n + 1}, b, c, d, e, n + 1)
  {
  }

  lemma ApartShrinks(a: set<Id>, b: set<Id>, c: set<Id>, d: set<Id>, e: set<Id>, n: nat,
                     a': set<Id>, b': set<Id>, c': set<Id>, d': set<Id>, e': set<Id>, n': nat)
    requires Apart(a, b, c, d, e, n) && n <= n'
    requires a' <= a && b' <= b && c' <= c && d' <= d && e' <= e
    ensures Apart(a', b', c', d', e', n')
  {
  }

  lemma CameraIdsKeepKeys(t: Tables, call: Call, a: Answer)
    requires KeysOk(t) && Serve(t, call, a).0.draws == t.draws + 1 < U64
    requires call.OpenCamera? || call.AnnounceFrame? || call.InstallFrameCallback?
    ensures KeysOk(Serve(t, call, a).0)
  {
    var t' := Serve(t, call, a).0;
    var p, q, r, u, v, n := t.cameras.Keys, t.announced.Keys, t.frameCallbacks.Keys,
                            t.discoveryCallbacks.Keys, t.discoveryRegs.Keys, t.draws;
    UnwrappedId(n);
    match call {
      case OpenCamera(_) => ApartGrows(p, q, r, u, v, n); assert t'.cameras.Keys == p + {n + 1};
      case AnnounceFrame(_, _) => ApartGrows(q, p, r, u, v, n); assert t'.announced.Keys == q + {n + 1};
      case InstallFrameCallback(_) => ApartGrows(r, p, q, u, v, n); assert t'.frameCallbacks.Keys == r + {n + 1};
    }
  }

  lemma DiscoveryIdsKeepKeys(t: Tables, call: Call, a: Answer)
    requires KeysOk(t) && Serve(t, call, a).0.draws == t.draws + 1 < U64
    requires call.RegisterDiscovery? || call.InstallDiscoveryCallback?
    ensures KeysOk(Serve(t, call, a).0)
  {
    var t' := Serve(t, call, a).0;
    var p, q, r, u, v, n := t.cameras.Keys, t.announced.Keys, t.frameCallbacks.Keys,
                            t.discoveryCallbacks.Keys, t.discoveryRegs.Keys, t.draws;
    UnwrappedId(n);
    match call {
      case InstallDiscoveryCallback(_) =>
        ApartGrows(u, p, q, r, v, n); assert t'.discoveryCallbacks.Keys == u + {n + 1};
      case RegisterDiscovery(_) =>
        ApartGrows(v, p, q, r, u, n); assert t'.discoveryRegs.Keys == v + {n + 1};
    }
  }

  predicate KeysShrink(t: Tables, t': Tables) {
    && t'.cameras.Keys <= t.cameras.Keys && t'.announced.Keys <= t.announced.Keys
    && t'.frameCallbacks.Keys <= t.frameCallbacks.Keys
    && t'.discoveryCallbacks.Keys <= t.discoveryCallbacks.Keys
    && t'.discoveryRegs.Keys <= t.discoveryRegs.Keys
  }

  lemma NoDrawNoKey(t: Tables, call: Call, a: Answer)
    requires Serve(t, call, a).0.draws == t.draws
    ensures KeysShrink(t, Serve(t, call, a).0)
  {
  }

  lemma ServeDraws(t: Tables, call: Call, a: Answer)
    ensures var t' := Serve(t, call, a).0;
      t'.draws == t.draws || (t'.draws == t.draws + 1
        && (call.OpenCamera? || call.AnnounceFrame? || call.InstallFrameCallback?
            || call.RegisterDiscovery? || call.InstallDiscoveryCallback?))
  {
  }

  lemma ServeKeepsKeys(t: Tables, call: Call, a: Answer)
    requires KeysOk(t) && Serve(t, call, a).0.draws < U64
    ensures KeysOk(Serve(t, call, a).0)
  {
    var t' := Serve(t, call, a).0;
    ServeDraws(t, call, a);
    if t'.draws == t.draws {
      NoDrawNoKey(t, call, a);
      ApartShrinks(t.cameras.Keys, t.announced.Keys, t.frameCallbacks.Keys,
                   t.discoveryCallbacks.Keys, t.discoveryRegs.Keys, t.draws,
                   t'.cameras.Keys, t'.announced.Keys, t'.frameCallbacks.Keys,
                   t'.discoveryCallbacks.Keys, t'.discoveryRegs.Keys, t'.draws);
    } else if call.RegisterDiscovery? || call.InstallDiscoveryCallback? {
      DiscoveryIdsKeepKeys(t, call, a);
    } else {
      CameraIdsKeepKeys(t, call, a);
    }
  }

  // --- Slots and callbacks, as bookkeeping on maps ----------------------

  lemma SlotsGain(announced: map<Id, Id>, slots: map<Id, seq<Id>>, h: Id, id: Id)
    requires SlotsOk(announced, slots) && h in slots && id !in announced
    ensures SlotsOk(announced[id := h], slots[h := slots[h] + [id]])
  {
    var slots' := slots[h := slots[h] + [id]];
    assert slots'[h][|slots[h]|] == id;
    assert id !in slots[h];
  }

  lemma SlotsLose(announced: map<Id, Id>, slots: map<Id, seq<Id>>, h: Id)
    requires SlotsOk(announced, slots) && h in slots
    ensures SlotsOk(OwnedByOthers(announced, h), slots[h := []])
  {
  }

  lemma CallbacksGain(callbacks: map<Id, Closure>, held: map<Id, (Id, Closure)>, h: Id, id: Id, f: Closure)
    requires CallbacksOk(callbacks, held) && h !in held && id !in callbacks
    ensures CallbacksOk(callbacks[id := f], held[h := (id, f)])
  {
    var held', callbacks' := held[h := (id, f)], callbacks[id := f];
    forall cb <- callbacks'
      ensures exists k :: k in held' && held'[k].0 == cb
    {
      if cb == id {
        assert held'[h].0 == cb;
      } else {
        var k :| k in held && held[k].0 == cb;
        assert held'[k].0 == cb;
      }
    }
  }

  lemma CallbacksLose(callbacks: map<Id, Closure>, held: map<Id, (Id, Closure)>, h: Id)
    requires CallbacksOk(callbacks, held) && h in held
    ensures CallbacksOk(callbacks - {held[h].0}, held - {h})
  {
    var held', callbacks' := held - {h}, callbacks - {held[h].0};
    forall cb <- callbacks'
      ensures exists k :: k in held' && held'[k].0 == cb
    {
      var k :| k in held && held[k].0 == cb;
      assert held'[k].0 == cb;
    }
  }

  // --- One call of one camera -------------------------------------------

  function Put(cams: map<Id, CameraState>, h: Id, c: CameraState): map<Id, CameraState> {
    if c.pc.Dropped? then cams - {h} else cams[h := c]
  }

  lemma ClosingHoldsNothing(c: CameraState)
    requires c.pc.Closing? || c.pc.Dropped?
    ensures SlotsOf(c) == [] && LiveOf(c) == None && CallbackOf(c) == None
  {
  }

  lemma PutKeepsSlots(t: Tables, cams: map<Id, CameraState>, h: Id, t': Tables, c': CameraState)
    requires SlotsOk(t.announced, Slots(cams)) && h in cams && cams[h].handle == h
    requires SlotsEffect(t, cams[h], t', c')
    requires forall s <- t.announced :: s <= t.draws
    requires t'.draws < U64 && (c'.pc.Dropped? ==> cams[h].pc.Closing?)
    ensures SlotsOk(t'.announced, Slots(Put(cams, h, c')))
  {
    var c, slots := cams[h], Slots(cams);
    assert slots[h] == SlotsOf(c);
    if c'.pc.Dropped? {
      ClosingHoldsNothing(c);
      ClosingHoldsNothing(c');
      assert Slots(Put(cams, h, c')) == slots - {h};
      assert t'.announced == t.announced;
    } else {
      assert Slots(Put(cams, h, c')) == slots[h := SlotsOf(c')];
      if SlotsOf(c') == SlotsOf(c) && t'.announced == t.announced {
        assert slots[h := SlotsOf(c')] == slots;
      } else if SlotsOf(c') == [] && t'.announced == OwnedByOthers(t.announced, h) {
        SlotsLose(t.announced, slots, h);
      } else {
        UnwrappedId(t.draws);
        SlotsGain(t.announced, slots, h, IdAfter(t.draws));
      }
    }
  }

  lemma PutKeepsActive(t: Tables, cams: map<Id, CameraState>, h: Id, t': Tables, c': CameraState)
    requires AllShaped(cams) && t.active == Captures(cams) && h in cams
    requires Shaped(c') && c'.handle == h && ActiveEffect(t, t', c')
    ensures AllShaped(Put(cams, h, c')) && t'.active == Captures(Put(cams, h, c'))
  {
    if c'.pc.Dropped? {
      ClosingHoldsNothing(c');
    }
  }

  lemma PutKeepsCallbacks(t: Tables, cams: map<Id, CameraState>, h: Id, t': Tables, c': CameraState)
    requires CallbacksOk(t.frameCallbacks, Callbacks(cams)) && h in cams
    requires CallbackEffect(t, cams[h], t', c') && c'.given == cams[h].given
    requires forall cb <- t.frameCallbacks :: cb <= t.draws
    requires t'.draws < U64 && (c'.pc.Dropped? ==> cams[h].pc.Closing?)
    ensures CallbacksOk(t'.frameCallbacks, Callbacks(Put(cams, h, c')))
  {
    var c, held := cams[h], Callbacks(cams);
    var held' := Callbacks(Put(cams, h, c'));
    if c'.pc.Dropped? {
      ClosingHoldsNothing(c);
      ClosingHoldsNothing(c');
    }
    if CallbackOf(c') == CallbackOf(c) && t'.frameCallbacks == t.frameCallbacks {
      assert held' == held;
    } else if CallbackOf(c').None? {
      assert held' == held - {h};
      CallbacksLose(t.frameCallbacks, held, h);
    } else {
      UnwrappedId(t.draws);
      assert held' == held[h := (IdAfter(t.draws), c.given)];
      CallbacksGain(t.frameCallbacks, held, h, IdAfter(t.draws), c.given);
    }
  }

  lemma PutKeepsCameras(t: Tables, cams: map<Id, CameraState>, h: Id, t': Tables, c': CameraState)
    requires CamerasOk(t.cameras, cams) && h in cams
    requires Shaped(c') && c'.handle == h && OtherwiseSame(t, t', c')
    ensures CamerasOk(t'.cameras, Put(cams, h, c'))
  {
  }

  lemma CameraStep(t: Tables, d: State, h: Id, a: Answer)
    requires TablesMatch(t, d) && CanCall(d, Cam(h))
    requires Serve(t, CallOf(d, Cam(h)), a).0.draws < U64
    ensures var (t', r) := Serve(t, CallOf(d, Cam(h)), a);
      TablesMatch(t', Receive(d, Cam(h), r))
  {
    var c := d.cams[h];
    var (t', r) := Serve(t, Next(c), a);
    var c' := Advance(c, r);
    TablesHold(t, d, h);
    StepEffect(t, c, a);
    assert Effect(t, c, t', c');
    ServeKeepsKeys(t, Next(c), a);
    PutKeepsCameras(t, d.cams, h, t', c');
    PutKeepsSlots(t, d.cams, h, t', c');
    PutKeepsActive(t, d.cams, h, t', c');
    PutKeepsCallbacks(t, d.cams, h, t', c');
    assert Receive(d, Cam(h), r).cams == Put(d.cams, h, c');
  }

  // --- Opening, entering a method, subscribing --------------------------

  predicate SameHoldings(c: CameraState, c': CameraState) {
    && Shaped(c') && c'.handle == c.handle && !c'.pc.Dropped?
    && SlotsOf(c') == SlotsOf(c) && LiveOf(c') == LiveOf(c) && CallbackOf(c') == CallbackOf(c)
    && (CallbackOf(c').Some? ==> c'.given == c.given)
  }

  lemma SwapKeepsShape(cams: map<Id, CameraState>, h: Id, c': CameraState)
    requires AllShaped(cams) && h in cams && SameHoldings(cams[h], c')
    ensures AllShaped(cams[h := c']) && Slots(cams[h := c']) == Slots(cams)
    ensures Callbacks(cams[h := c']) == Callbacks(cams)
  {
  }

  lemma SwapKeepsViews(cams: map<Id, CameraState>, h: Id, c': CameraState)
    requires AllShaped(cams) && h in cams && SameHoldings(cams[h], c')
    ensures var cams' := cams[h := c'];
      && AllShaped(cams') && Slots(cams') == Slots(cams)
      && Callbacks(cams') == Callbacks(cams) && Captures(cams') == Captures(cams)
  {
    SwapKeepsShape(cams, h, c');
    assert LiveOf(c').Some? ==> Queued(c') == Queued(cams[h]);
  }

  /** Replacing a program by one that holds the same things. */
  lemma SwapKeepsMatch(t: Tables, d: State, h: Id, c': CameraState)
    requires TablesMatch(t, d) && h in d.cams && SameHoldings(d.cams[h], c')
    ensures TablesMatch(t, d.(cams := d.cams[h := c']))
  {
    SwapKeepsViews(d.cams, h, c');
  }

  lemma BeginHoldsSame(c: CameraState, buffers: nat, closure: Closure)
    requires c.pc.Ready? && Shaped(c)
    ensures SameHoldings(c, BeginStart(c, buffers, closure))
    ensures SameHoldings(c, BeginStop(c))
    ensures SameHoldings(c, BeginDrop(c))
  {
  }

  lemma UnsubscribeKeepsMatch(callbacks: map<Id, Closure>, registered: map<Id, Id>,
                              regs: map<Id, Registration>, cb: Id)
    requires SubscriptionsOk(callbacks, registered, regs)
    requires cb in regs && regs[cb].phase.Subscribed?
    ensures SubscriptionsOk(callbacks, registered,
                            regs[cb := regs[cb].(phase := Unregistering(regs[cb].phase.handle))])
  {
  }

  lemma EnterKeepsMatch(t: Tables, d: State, e: Event)
    requires TablesMatch(t, d)
    ensures TablesMatch(t, Enter(d, e))
  {
    if e.Unsubscribe? {
      if e.cb in d.regs && d.regs[e.cb].phase.Subscribed? {
        UnsubscribeKeepsMatch(t.discoveryCallbacks, t.discoveryRegs, d.regs, e.cb);
      }
    } else if !e.Invoke? && e.h in d.cams && d.cams[e.h].pc.Ready? {
      var c := d.cams[e.h];
      BeginHoldsSame(c, if e.Start? then e.buffers else 0, if e.Start? then e.closure else 0);
      match e {
        case Start(h, buffers, closure) => SwapKeepsMatch(t, d, h, BeginStart(c, buffers, closure));
        case Stop(h) => SwapKeepsMatch(t, d, h, BeginStop(c));
        case Drop(h) => SwapKeepsMatch(t, d, h, BeginDrop(c));
      }
    }
  }

  lemma SlotsOpen(announced: map<Id, Id>, slots: map<Id, seq<Id>>, h: Id)
    requires SlotsOk(announced, slots) && h !in slots
    ensures SlotsOk(announced, slots[h := []])
  {
  }

  lemma OpenedHoldsNothing(cams: map<Id, CameraState>, h: Id)
    requires AllShaped(cams) && h !in cams
    ensures var cams' := cams[h := Opened(h)];
      && AllShaped(cams') && Slots(cams') == Slots(cams)[h := []]
      && Callbacks(cams') == Callbacks(cams) && Captures(cams') == Captures(cams)
  {
  }

  lemma OpenedKeepsTables(t: Tables, cams: map<Id, CameraState>, id: Id, name: string)
    requires CameraTablesOk(t.cameras, t.announced, t.active, t.frameCallbacks, cams) && id !in t.cameras
    ensures CameraTablesOk(t.cameras[id := name], t.announced, t.active, t.frameCallbacks, cams[id := Opened(id)])
  {
    SlotsOpen(t.announced, Slots(cams), id);
    OpenedHoldsNothing(cams, id);
  }

  lemma OpenServed(t: Tables, name: string, a: Answer)
    requires a.fail.None? && t.draws + 1 < U64
    ensures Serve(t, OpenCamera(name), a)
         == (t.(cameras := t.cameras[t.draws + 1 := name], draws := t.draws + 1), Got(t.draws + 1))
  {
    UnwrappedId(t.draws);
  }

  lemma OpenedKeys(t: Tables, name: string)
    requires KeysOk(t)
    ensures KeysOk(t.(cameras := t.cameras[t.draws + 1 := name], draws := t.draws + 1))
    ensures t.draws + 1 !in t.cameras
  {
    ApartGrows(t.cameras.Keys, t.announced.Keys, t.frameCallbacks.Keys,
               t.discoveryCallbacks.Keys, t.discoveryRegs.Keys, t.draws);
    assert t.cameras[t.draws + 1 := name].Keys == t.cameras.Keys + {t.draws + 1};
    assert t.draws + 1 !in t.cameras.Keys;
  }

  lemma OpenedMatch(t: Tables, d: State, name: string)
    requires TablesMatch(t, d)
    ensures TablesMatch(t.(cameras := t.cameras[t.draws + 1 := name], draws := t.draws + 1),
                        Receive(d, Opener(name), Got(t.draws + 1)))
  {
    OpenedKeys(t, name);
    OpenedKeepsTables(t, d.cams, t.draws + 1, name);
  }

  lemma OpenDraws(t: Tables, name: string, a: Answer)
    ensures Serve(t, OpenCamera(name), a).0.draws == if a.fail.None? then t.draws + 1 else t.draws
  {
  }

  lemma OpenRefused(t: Tables, d: State, name: string, e: VmbError)
    requires TablesMatch(t, d)
    ensures TablesMatch(t, Receive(d, Opener(name), Failed(e)))
  {
  }

  lemma OpenKeepsMatch(t: Tables, d: State, name: string, a: Answer)
    requires TablesMatch(t, d) && Serve(t, OpenCamera(name), a).0.draws < U64
    ensures var (t', r) := Serve(t, OpenCamera(name), a);
      TablesMatch(t', Receive(d, Opener(name), r))
  {
    OpenDraws(t, name, a);
    if a.fail.None? {
      OpenServed(t, name, a);
      OpenedMatch(t, d, name);
    } else {
      OpenRefused(t, d, name, a.fail.value);
    }
  }

  lemma Installed(callbacks: map<Id, Closure>, registered: map<Id, Id>, regs: map<Id, Registration>,
                  id: Id, f: Closure)
    requires SubscriptionsOk(callbacks, registered, regs) && id !in regs
    ensures SubscriptionsOk(callbacks[id := f], registered, regs[id := Registration(f, Registering)])
  {
  }

  lemma Registered(callbacks: map<Id, Closure>, registered: map<Id, Id>, regs: map<Id, Registration>,
                   cb: Id, r: Id)
    requires SubscriptionsOk(callbacks, registered, regs) && r !in registered
    requires cb in regs && HandleOf(regs[cb]).None?
    ensures SubscriptionsOk(callbacks, registered[r := cb], regs[cb := regs[cb].(phase := Subscribed(r))])
  {
  }

  lemma RegistrationFailed(callbacks: map<Id, Closure>, registered: map<Id, Id>,
                           regs: map<Id, Registration>, cb: Id)
    requires SubscriptionsOk(callbacks, registered, regs) && cb in regs && HandleOf(regs[cb]).None?
    ensures SubscriptionsOk(callbacks, registered, regs[cb := regs[cb].(phase := Releasing)])
  {
  }

  lemma Unregistered(callbacks: map<Id, Closure>, registered: map<Id, Id>, regs: map<Id, Registration>, cb: Id)
    requires SubscriptionsOk(callbacks, registered, regs) && cb in regs && HandleOf(regs[cb]).Some?
    ensures SubscriptionsOk(callbacks, registered - {HandleOf(regs[cb]).value},
                            regs[cb := regs[cb].(phase := Releasing)])
  {
  }

  lemma Released(callbacks: map<Id, Closure>, registered: map<Id, Id>, regs: map<Id, Registration>, cb: Id)
    requires SubscriptionsOk(callbacks, registered, regs) && cb in regs && HandleOf(regs[cb]).None?
    ensures SubscriptionsOk(callbacks - {cb}, registered, regs - {cb})
  {
  }

  lemma InstallServed(t: Tables, f: Closure, a: Answer)
    requires t.draws + 1 < U64
    ensures Serve(t, InstallDiscoveryCallback(f), a)
         == (t.(discoveryCallbacks := t.discoveryCallbacks[t.draws + 1 := f], draws := t.draws + 1),
             Got(t.draws + 1))
  {
    UnwrappedId(t.draws);
  }

  /** Only the discovery tables and the subscriptions changed. */
  lemma SubscriptionsMatch(t: Tables, d: State, t': Tables, d': State)
    requires TablesMatch(t, d) && d'.cams == d.cams
    requires t'.cameras == t.cameras && t'.announced == t.announced && t'.active == t.active
    requires t'.frameCallbacks == t.frameCallbacks && KeysOk(t')
    requires SubscriptionsOk(t'.discoveryCallbacks, t'.discoveryRegs, d'.regs)
    ensures TablesMatch(t', d')
  {
  }

  lemma SubscriberReceives(d: State, cb: Id, r: Reply)
    requires CanCall(d, Sub(cb))
    ensures Receive(d, Sub(cb), r).cams == d.cams
    ensures Receive(d, Sub(cb), r).regs == SubReceive(d.regs, cb, r)
  {
  }

  lemma InstalledMatch(t: Tables, d: State, f: Closure)
    requires TablesMatch(t, d)
    requires KeysOk(t.(discoveryCallbacks := t.discoveryCallbacks[t.draws + 1 := f], draws := t.draws + 1))
    ensures TablesMatch(t.(discoveryCallbacks := t.discoveryCallbacks[t.draws + 1 := f], draws := t.draws + 1),
                        Receive(d, Registrar(f), Got(t.draws + 1)))
  {
    assert t.draws + 1 !in t.discoveryCallbacks.Keys;
    Installed(t.discoveryCallbacks, t.discoveryRegs, d.regs, t.draws + 1, f);
  }

  lemma InstallKeepsMatch(t: Tables, d: State, f: Closure, a: Answer)
    requires TablesMatch(t, d) && Serve(t, InstallDiscoveryCallback(f), a).0.draws < U64
    ensures var (t', r) := Serve(t, InstallDiscoveryCallback(f), a);
      TablesMatch(t', Receive(d, Registrar(f), r))
  {
    ServeKeepsKeys(t, InstallDiscoveryCallback(f), a);
    InstallServed(t, f, a);
    InstalledMatch(t, d, f);
  }

  lemma RegisterServed(t: Tables, cb: Id, a: Answer)
    requires a.fail.None? && t.draws + 1 < U64
    ensures Serve(t, RegisterDiscovery(cb), a)
         == (t.(discoveryRegs := t.discoveryRegs[t.draws + 1 := cb], draws := t.draws + 1), Got(t.draws + 1))
  {
    UnwrappedId(t.draws);
  }

  lemma RegisteredMatch(t: Tables, d: State, cb: Id)
    requires TablesMatch(t, d) && cb in d.regs && d.regs[cb].phase.Registering?
    requires KeysOk(t.(discoveryRegs := t.discoveryRegs[t.draws + 1 := cb], draws := t.draws + 1))
    ensures TablesMatch(t.(discoveryRegs := t.discoveryRegs[t.draws + 1 := cb], draws := t.draws + 1),
                        Receive(d, Sub(cb), Got(t.draws + 1)))
  {
    RegisteredOk(t, d.regs, cb);
    SubscriberReceives(d, cb, Got(t.draws + 1));
    SubscriptionsMatch(t, d, t.(discoveryRegs := t.discoveryRegs[t.draws + 1 := cb], draws := t.draws + 1),
                       Receive(d, Sub(cb), Got(t.draws + 1)));
  }

  lemma RegisteredOk(t: Tables, regs: map<Id, Registration>, cb: Id)
    requires KeysOk(t) && SubscriptionsOk(t.discoveryCallbacks, t.discoveryRegs, regs)
    requires cb in regs && regs[cb].phase.Registering?
    ensures SubscriptionsOk(t.discoveryCallbacks, t.discoveryRegs[t.draws + 1 := cb],
                            SubReceive(regs, cb, Got(t.draws + 1)))
  {
    assert t.draws + 1 !in t.discoveryRegs.Keys;
    Registered(t.discoveryCallbacks, t.discoveryRegs, regs, cb, t.draws + 1);
  }

  lemma RegisterKeepsMatch(t: Tables, d: State, cb: Id, a: Answer)
    requires TablesMatch(t, d) && cb in d.regs && d.regs[cb].phase.Registering?
    requires Serve(t, RegisterDiscovery(cb), a).0.draws < U64
    ensures var (t', r) := Serve(t, RegisterDiscovery(cb), a);
      TablesMatch(t', Receive(d, Sub(cb), r))
  {
    if a.fail.None? {
      ServeKeepsKeys(t, RegisterDiscovery(cb), a);
      RegisterServed(t, cb, a);
      RegisteredMatch(t, d, cb);
    } else {
      RegistrationFailed(t.discoveryCallbacks, t.discoveryRegs, d.regs, cb);
    }
  }

  lemma UnregisterMatch(t: Tables, d: State, cb: Id, r: Id, a: Answer)
    requires TablesMatch(t, d) && cb in d.regs && d.regs[cb].phase == Unregistering(r)
    requires KeysOk(Serve(t, UnregisterDiscovery(r), a).0)
    ensures TablesMatch(Serve(t, UnregisterDiscovery(r), a).0, Receive(d, Sub(cb), Done))
  {
    Unregistered(t.discoveryCallbacks, t.discoveryRegs, d.regs, cb);
    SubscriberReceives(d, cb, Done);
    UnregisterServed(t, r, a);
    SubscriptionsMatch(t, d, Serve(t, UnregisterDiscovery(r), a).0, Receive(d, Sub(cb), Done));
  }

  lemma UnregisterServed(t: Tables, r: Id, a: Answer)
    ensures Serve(t, UnregisterDiscovery(r), a) == (t.(discoveryRegs := t.discoveryRegs - {r}), Done)
    ensures Serve(t, UninstallDiscoveryCallback(r), a)
         == (t.(discoveryCallbacks := t.discoveryCallbacks - {r}), Done)
  {
  }

  lemma ReleaseMatch(t: Tables, d: State, cb: Id, a: Answer)
    requires TablesMatch(t, d) && cb in d.regs && d.regs[cb].phase.Releasing?
    requires KeysOk(Serve(t, UninstallDiscoveryCallback(cb), a).0)
    ensures TablesMatch(Serve(t, UninstallDiscoveryCallback(cb), a).0, Receive(d, Sub(cb), Done))
  {
    Released(t.discoveryCallbacks, t.discoveryRegs, d.regs, cb);
    SubscriberReceives(d, cb, Done);
    UnregisterServed(t, cb, a);
    SubscriptionsMatch(t, d, Serve(t, UninstallDiscoveryCallback(cb), a).0, Receive(d, Sub(cb), Done));
  }

  lemma UnregisterKeepsMatch(t: Tables, d: State, cb: Id, a: Answer)
    requires TablesMatch(t, d) && CanCall(d, Sub(cb)) && !d.regs[cb].phase.Registering?
    requires Serve(t, CallOf(d, Sub(cb)), a).0.draws < U64
    ensures var (t', r) := Serve(t, CallOf(d, Sub(cb)), a);
      TablesMatch(t', Receive(d, Sub(cb), r))
  {
    ServeKeepsKeys(t, CallOf(d, Sub(cb)), a);
    match d.regs[cb].phase
    case Unregistering(r) => UnregisterMatch(t, d, cb, r, a);
    case Releasing => ReleaseMatch(t, d, cb, a);
  }

  // --- Whole runs -------------------------------------------------------

  /** The id a call returns is the one its draw issued. */
  lemma ReplyIdIsNext(t: Tables, c: Call, a: Answer)
    requires Serve(t, c, a).0.draws < U64
    ensures Serve(t, c, a).1.Got? ==> Serve(t, c, a).1.id == t.draws + 1 == Serve(t, c, a).0.draws
    ensures t.draws <= Serve(t, c, a).0.draws
  {
    ServeDraws(t, c, a);
    if Serve(t, c, a).0.draws == t.draws + 1 {
      UnwrappedId(t.draws);
    }
  }

  /** What a camera of a run holds was issued. */
  lemma HoldingsIssued(t: Tables, d: State, h: Id)
    requires TablesMatch(t, d) && h in d.cams
    ensures d.cams[h].handle == h && 1 <= h <= t.draws
    ensures forall s <- SlotsOf(d.cams[h]) :: s in t.announced && s <= t.draws
  {
    assert h in t.cameras.Keys;
    assert Slots(d.cams)[h] == SlotsOf(d.cams[h]);
    forall s <- SlotsOf(d.cams[h])
      ensures s in t.announced && s <= t.draws
    {
      assert s in t.announced.Keys;
    }
  }

  lemma StepDraws(w: World, x: Step)
    ensures w.t.draws <= Take(w, x).t.draws
  {
    if x.Domain? && x.e.Invoke? && CanCall(w.d, x.e.who) {
      ServeDraws(w.t, CallOf(w.d, x.e.who), x.e.answer);
    }
  }

  lemma StepKeepsMatch(w: World, x: Step)
    requires TablesMatch(w.t, w.d) && Take(w, x).t.draws < U64
    ensures TablesMatch(Take(w, x).t, Take(w, x).d)
  {
    match x
    case Domain(Invoke(who, a)) =>
      if CanCall(w.d, who) {
        match who {
          case Cam(h) => CameraStep(w.t, w.d, h, a);
          case Opener(name) => OpenKeepsMatch(w.t, w.d, name, a);
          case Registrar(f) => InstallKeepsMatch(w.t, w.d, f, a);
          case Sub(cb) =>
            if w.d.regs[cb].phase.Registering? {
              RegisterKeepsMatch(w.t, w.d, cb, a);
            } else {
              UnregisterKeepsMatch(w.t, w.d, cb, a);
            }
        }
      }
    case Domain(e) => EnterKeepsMatch(w.t, w.d, e);
    case Deliver(_) =>
  }

  /** The global table invariant: at the end of every run, hence at every
      step of every run, in which the id counter has not wrapped. */
  lemma {:induction false} TablesAlwaysMatch(xs: seq<Step>)
    requires Run(xs).t.draws < U64
    ensures TablesMatch(Run(xs).t, Run(xs).d)
  {
    if xs != [] {
      var front, last := xs[..|xs| - 1], xs[|xs| - 1];
      StepDraws(Run(front), last);
      TablesAlwaysMatch(front);
      StepKeepsMatch(Run(front), last);
    }
  }
}
