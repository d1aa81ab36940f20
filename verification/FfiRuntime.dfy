/** The FFI adapter as the mutable object it is, with its `TrampolineContext`
    boxes as objects that are patched in place. The methods are proved against
    the functions of `FfiModel`; the SDK's answers are parameters and its
    bookkeeping is ghost. */
module FfiRuntime {
  import opened Port
  import opened FfiModel

  /** A boxed context at a fixed address. Its first field is the frame the SDK
      is given, so frame and context share the address. */
  class TrampolineContext {
    const addr: Addr
    var callback: FrameCallback
    var context0: Option<Addr>

    constructor (addr: Addr, callback: FrameCallback)
      ensures this.addr == addr && View() == Context(callback, None)
    {
      this.addr, this.callback := addr, callback;
      context0 := None;
    }

    ghost function View(): Context
      reads this
    {
      Context(callback, context0)
    }

    method VmbFrameMutPtr() returns (p: Addr)
      modifies `context0
      ensures p == addr && context0 == Some(addr)
    {
      context0 := Some(addr);
      p := addr;
    }

    method SetCallback(callback: FrameCallback)
      modifies `callback
      ensures this.callback == callback
    {
      this.callback := callback;
    }
  }

  /** A boxed discovery context, handed to the SDK as a raw pointer. */
  class DiscoveryTrampolineCtx {
    const addr: Addr
    const callback: Closure

    constructor (addr: Addr, callback: Closure)
      ensures this.addr == addr && this.callback == callback
    {
      this.addr, this.callback := addr, callback;
    }
  }

  ghost function Registered(regs: map<Id, DiscoveryTrampolineCtx>): map<Id, Addr> {
    map r | r in regs :: regs[r].addr
  }

  /** Between calls the contexts not reclaimed are exactly those of the
      registrations, one each. */
  ghost predicate OneEach(regs: map<Id, DiscoveryTrampolineCtx>, contexts: map<Addr, DiscoveryTrampolineCtx>) {
    && (forall r <- regs :: regs[r].addr in contexts && contexts[regs[r].addr] == regs[r])
    && (forall r <- regs, r' <- regs :: regs[r].addr == regs[r'].addr ==> r == r')
    && (forall p <- contexts :: p in Registered(regs).Values)
  }

  lemma OneEachGains(regs: map<Id, DiscoveryTrampolineCtx>, contexts: map<Addr, DiscoveryTrampolineCtx>,
                     h: Id, ctx: DiscoveryTrampolineCtx)
    requires OneEach(regs, contexts) && h !in regs && ctx.addr !in contexts
    ensures OneEach(regs[h := ctx], contexts[ctx.addr := ctx])
    ensures Registered(regs[h := ctx]) == Registered(regs)[h := ctx.addr]
  {
    var more := regs[h := ctx];
    assert Registered(more) == Registered(regs)[h := ctx.addr];
    assert Registered(more)[h] == ctx.addr;
    forall p <- contexts
      ensures p in Registered(more).Values
    {
      var r :| r in regs && Registered(regs)[r] == p;
      assert Registered(more)[r] == p;
    }
  }

  lemma OneEachLoses(regs: map<Id, DiscoveryTrampolineCtx>, contexts: map<Addr, DiscoveryTrampolineCtx>, h: Id)
    requires OneEach(regs, contexts) && h in regs
    ensures OneEach(regs - {h}, contexts - {regs[h].addr})
    ensures Registered(regs - {h}) == Registered(regs) - {h}
  {
    var fewer := regs - {h};
    assert Registered(fewer) == Registered(regs) - {h};
    forall p <- contexts - {regs[h].addr}
      ensures p in Registered(fewer).Values
    {
      var r :| r in regs && Registered(regs)[r] == p;
      assert Registered(fewer)[r] == p;
    }
  }

  ghost function Pointers(frames: map<Id, TrampolineContext>): map<Id, Addr> {
    map s | s in frames :: frames[s].addr
  }

  ghost function Boxes(memory: map<Addr, TrampolineContext>): map<Addr, Context>
    reads memory.Values
  {
    map p | p in memory :: memory[p].View()
  }

  lemma PointersGain(frames: map<Id, TrampolineContext>, slot: Id, ctx: TrampolineContext)
    ensures Pointers(frames[slot := ctx]) == Pointers(frames)[slot := ctx.addr]
  {
  }

  lemma BoxesGain(memory: map<Addr, TrampolineContext>, ctx: TrampolineContext)
    ensures Boxes(memory[ctx.addr := ctx]) == Boxes(memory)[ctx.addr := ctx.View()]
  {
  }

  lemma PointerValues(frames: map<Id, TrampolineContext>)
    ensures Pointers(frames).Values == set s | s in frames :: frames[s].addr
  {
    forall s <- frames
      ensures frames[s].addr in Pointers(frames).Values
    {
      assert Pointers(frames)[s] == frames[s].addr;
    }
  }

  /** A call fails exactly if an id it names is unknown, as `unknown` says, or
      else if the SDK refuses it, with the SDK's error. */
  predicate FailsWith(known: bool, unknown: Label, refused: Option<VmbError>, r: Reply) {
    && (r.Failed? <==> !known || refused.Some?)
    && (r.Failed? ==> r.error == if known then refused.value else InvalidString(unknown))
  }

  class Runtime {
    var cameras: map<Id, Addr>
    var frames: map<Id, TrampolineContext>
    var frameCallbacks: map<Id, Closure>
    var discoveryCallbacks: map<Id, Closure>
    var discoveryRegs: map<Id, DiscoveryTrampolineCtx>
    var counter: nat
    /** The live boxes by address: what a raw pointer can be followed to. */
    var memory: map<Addr, TrampolineContext>
    /** The discovery contexts not reclaimed, by address. */
    var contexts: map<Addr, DiscoveryTrampolineCtx>
    ghost var draws: nat
    ghost var sdk: SdkState
    ghost var history: History

    ghost predicate Valid()
      reads `counter, `draws, `frames, `memory
    {
      && counter == IdAfter(draws)
      && (forall s <- frames :: frames[s].addr in memory && memory[frames[s].addr] == frames[s])
      && (forall p <- memory :: memory[p].addr == p)
    }

    ghost function View(): FfiState
      reads `cameras, `frames, `frameCallbacks, `discoveryCallbacks, `discoveryRegs, `draws, `sdk, `history
      reads `memory, memory.Values
    {
      FfiState(cameras, Pointers(frames), Boxes(memory), frameCallbacks, discoveryCallbacks,
               Registered(discoveryRegs), draws, sdk, history)
    }

    constructor ()
      ensures Valid() && View() == NO_FFI && OneEach(discoveryRegs, contexts) && counter == 1
    {
      cameras, frames, memory, contexts := map[], map[], map[], map[];
      frameCallbacks, discoveryCallbacks, discoveryRegs := map[], map[], map[];
      counter, draws := 1, 0;
      sdk, history := NO_FFI.sdk, NO_FFI.history;
    }

    // --- Ids ------------------------------------------------------------

    method NextU64() returns (id: Id)
      requires Valid()
      modifies `counter, `draws
      ensures Valid() && draws == old(draws) + 1 && id == IdAfter(old(draws))
    {
      id := counter;
      counter := (counter + 1) % 0x1_0000_0000_0000_0000;
      draws := draws + 1;
    }

    method ResolveCamera(h: Id) returns (raw: Option<Addr>)
      ensures raw == if h in cameras then Some(cameras[h]) else None
    {
      raw := if h in cameras then Some(cameras[h]) else None;
    }

    // --- Boxes ----------------------------------------------------------

    /** A box is stored under a fresh slot, which owns it from now on. */
    method Own(ctx: TrampolineContext) returns (slot: Id)
      requires Valid() && ctx.addr !in memory
      modifies `counter, `draws, `frames, `memory
      ensures Valid() && slot == IdAfter(old(draws)) && draws == old(draws) + 1
      ensures frames == old(frames)[slot := ctx] && memory == old(memory)[ctx.addr := ctx]
    {
      slot := NextU64();
      frames := frames[slot := ctx];
      memory := memory[ctx.addr := ctx];
    }

    /** The SDK accepted the frame, and the adapter keeps its box. */
    method Keep(ctx: TrampolineContext, raw: Addr) returns (slot: Id)
      requires Valid() && ctx.addr !in memory && ctx.View() == Context(Placeholder, Some(ctx.addr))
      modifies `counter, `draws, `frames, `memory, `sdk
      ensures Valid() && slot == IdAfter(old(draws))
      ensures frames == old(frames)[slot := ctx] && memory == old(memory)[ctx.addr := ctx]
      ensures sdk == old(sdk).(frames := old(sdk).frames[ctx.addr := SdkFrame(raw, Announced)])
      ensures View() == WithBox(old(View()), slot, ctx.addr, raw)
    {
      sdk := sdk.(frames := sdk.frames[ctx.addr := SdkFrame(raw, Announced)]);
      slot := Own(ctx);
      PointersGain(old(frames), slot, ctx);
      BoxesGain(old(memory), ctx);
    }

    /** Empties the slot table, which frees every box in it. */
    method ReleaseBoxes()
      requires Valid()
      modifies `frames, `memory
      ensures Valid() && frames == map[]
      ensures memory == old(memory) - set s | s in old(frames) :: old(frames)[s].addr
      ensures View() == old(View()).(frames := map[], heap := old(Boxes(memory)) - old(Pointers(frames)).Values)
    {
      memory := memory - set s | s in frames :: frames[s].addr;
      frames := map[];
      PointerValues(old(frames));
      assert Boxes(memory) == old(Boxes(memory)) - old(Pointers(frames)).Values;
      assert Pointers(frames) == map[];
    }

    // --- Cameras --------------------------------------------------------

    method OpenCamera(name: string, a: Answer) returns (r: Reply)
      requires Valid()
      modifies `counter, `draws, `cameras
      ensures Valid() && (View(), r) == Serve(old(View()), Call.OpenCamera(name), a)
      ensures FailsWith('\0' !in name, CameraName, a.fail, r)
      ensures r.Failed? ==> draws == old(draws)
      ensures if r.Got? then r.id != 0 && cameras == old(cameras)[r.id := a.raw] else cameras == old(cameras)
    {
      if '\0' in name {
        return Failed(InvalidString(CameraName));
      }
      if a.fail.Some? {
        return Failed(a.fail.value);
      }
      var h := NextU64();
      if h == 0 {
        return Panicked;
      }
      cameras := cameras[h := a.raw];
      return Got(h);
    }

    method CloseCamera(h: Id, a: Answer)
      requires Valid()
      modifies `cameras, `sdk
      ensures Valid() && (View(), Done) == Serve(old(View()), Call.CloseCamera(h), a)
      ensures cameras == old(cameras) - {h}
      ensures sdk == if h in old(cameras)
                     then old(sdk).(capturing := old(sdk).capturing - {old(cameras)[h]}) else old(sdk)
    {
      if h in cameras {
        sdk := sdk.(capturing := sdk.capturing - {cameras[h]});
        cameras := cameras - {h};
      }
    }

    method RunFeatureCommand(h: Id, command: Command, a: Answer) returns (r: Reply)
      requires Valid()
      ensures (View(), r) == Serve(View(), Call.RunFeatureCommand(h, command), a)
      ensures FailsWith(h in cameras, CameraHandle, a.fail, r) && (r.Done? || r.Failed?)
    {
      var raw := ResolveCamera(h);
      if raw.None? {
        return Failed(InvalidString(CameraHandle));
      }
      r := if a.fail.Some? then Failed(a.fail.value) else Done;
    }

    // --- Capture --------------------------------------------------------

    method PayloadSize(h: Id, a: Answer) returns (r: Reply)
      requires Valid()
      ensures (View(), r) == Serve(View(), Call.PayloadSize(h), a)
      ensures FailsWith(h in cameras, CameraHandle, a.fail, r) && (!r.Failed? ==> r == Size(a.payload))
    {
      var raw := ResolveCamera(h);
      if raw.None? {
        return Failed(InvalidString(CameraHandle));
      }
      r := if a.fail.Some? then Failed(a.fail.value) else Size(a.payload);
    }

    /** The allocator never returns the address of a live box. */
    method AnnounceFrame(h: Id, size: nat, a: Answer) returns (r: Reply)
      requires Valid() && a.addr !in memory
      modifies `counter, `draws, `frames, `memory, `sdk
      ensures Valid() && (View(), r) == Serve(old(View()), Call.AnnounceFrame(h, size), a)
      ensures FailsWith(h in cameras, CameraHandle, a.fail, r)
      ensures r.Failed? ==> frames == old(frames) && memory == old(memory) && sdk == old(sdk)
      ensures !r.Failed? ==>
        && r.Got? && r.id in frames && frames == old(frames)[r.id := frames[r.id]]
        && frames[r.id].addr == a.addr && frames[r.id].View() == Context(Placeholder, Some(a.addr))
        && sdk == old(sdk).(frames := old(sdk).frames[a.addr := SdkFrame(cameras[h], Announced)])
    {
      AnnounceServed(View(), h, size, a);
      var raw := ResolveCamera(h);
      if raw.None? {
        return Failed(InvalidString(CameraHandle));
      }
      var ctx := new TrampolineContext(a.addr, Placeholder);
      var _ := ctx.VmbFrameMutPtr();
      if a.fail.Some? {
        return Failed(a.fail.value);
      }
      var slot := Keep(ctx, raw.value);
      return Got(slot);
    }

    method CaptureStart(h: Id, a: Answer) returns (r: Reply)
      requires Valid()
      modifies `sdk
      ensures Valid() && (View(), r) == Serve(old(View()), Call.CaptureStart(h), a)
      ensures FailsWith(h in cameras, CameraHandle, a.fail, r) && (r.Done? || r.Failed?)
      ensures sdk == if r.Done? then old(sdk).(capturing := old(sdk).capturing + {cameras[h]}) else old(sdk)
    {
      var raw := ResolveCamera(h);
      if raw.None? {
        return Failed(InvalidString(CameraHandle));
      }
      if a.fail.Some? {
        return Failed(a.fail.value);
      }
      sdk := sdk.(capturing := sdk.capturing + {raw.value});
      return Done;
    }

    method QueueFrame(h: Id, slot: Id, cb: Id, a: Answer) returns (r: Reply)
      requires Valid()
      modifies `sdk, memory.Values
      ensures Valid() && memory == old(memory)
      ensures (View(), r) == Serve(old(View()), Call.QueueFrame(h, slot, cb), a)
      ensures FailsWith(h in cameras && cb in frameCallbacks && slot in frames,
                        if h !in cameras then CameraHandle else if cb !in frameCallbacks then FrameCallbackId
                        else FrameSlotId, a.fail, r)
      ensures h in cameras && cb in frameCallbacks && slot in frames ==>
        frames[slot].View() == Context(User(frameCallbacks[cb]), Some(frames[slot].addr))
      ensures r.Failed? ==> sdk == old(sdk)
      ensures !r.Failed? ==>
        r.Done? && sdk == old(sdk).(frames := old(sdk).frames[frames[slot].addr := SdkFrame(cameras[h], Queued)])
    {
      var raw := ResolveCamera(h);
      if raw.None? {
        return Failed(InvalidString(CameraHandle));
      }
      if cb !in frameCallbacks {
        return Failed(InvalidString(FrameCallbackId));
      }
      if slot !in frames {
        return Failed(InvalidString(FrameSlotId));
      }
      var ctx := frames[slot];
      assert ctx in memory.Values;
      ctx.SetCallback(User(frameCallbacks[cb]));
      var p := ctx.VmbFrameMutPtr();
      assert Boxes(memory) == old(Boxes(memory))[p := Context(User(frameCallbacks[cb]), Some(p))];
      if a.fail.Some? {
        return Failed(a.fail.value);
      }
      sdk := sdk.(frames := sdk.frames[p := SdkFrame(raw.value, Queued)]);
      return Done;
    }

    method CaptureEnd(h: Id, a: Answer)
      requires Valid()
      modifies `sdk
      ensures Valid() && (View(), Done) == Serve(old(View()), Call.CaptureEnd(h), a)
      ensures sdk == if h in cameras && a.fail.None?
                     then old(sdk).(capturing := old(sdk).capturing - {cameras[h]}) else old(sdk)
    {
      var raw := ResolveCamera(h);
      if raw.None? {
        return;
      }
      if a.fail.None? {
        sdk := sdk.(capturing := sdk.capturing - {raw.value});
      }
    }

    method CaptureQueueFlush(h: Id, a: Answer)
      requires Valid()
      modifies `sdk
      ensures Valid() && (View(), Done) == Serve(old(View()), Call.CaptureQueueFlush(h), a)
    {
      var raw := ResolveCamera(h);
      if raw.None? {
        return;
      }
      if a.fail.None? {
        sdk := sdk.(frames := AfterFlush(sdk.frames, raw.value));
      }
    }

    /** Clears every box of the adapter, whichever camera it was announced
        for. */
    method FrameRevokeAll(h: Id, a: Answer)
      requires Valid()
      modifies `sdk, `frames, `memory
      ensures Valid() && (View(), Done) == Serve(old(View()), Call.FrameRevokeAll(h), a)
      ensures h !in cameras ==> frames == old(frames) && memory == old(memory) && sdk == old(sdk)
      ensures h in cameras ==>
        && frames == map[] && sdk.capturing == old(sdk).capturing
        && memory == old(memory) - (set s | s in old(frames) :: old(frames)[s].addr)
        && sdk.frames == AfterRevoke(old(sdk).frames, cameras[h])
    {
      var raw := ResolveCamera(h);
      if raw.None? {
        return;
      }
      sdk := sdk.(frames := AfterRevoke(sdk.frames, raw.value));
      ReleaseBoxes();
    }

    // --- Discovery ------------------------------------------------------

    /** A context is allocated and offered to the SDK; it is stored under a
        fresh handle if the SDK accepts it and reclaimed if not. */
    method OfferContext(callback: Closure, a: Answer) returns (h: Option<Id>)
      requires Valid() && a.addr !in contexts && OneEach(discoveryRegs, contexts) && IdAfter(draws) !in discoveryRegs
      modifies `counter, `draws, `discoveryRegs, `contexts
      ensures Valid() && OneEach(discoveryRegs, contexts)
      ensures a.fail.Some? ==>
        h.None? && draws == old(draws) && discoveryRegs == old(discoveryRegs) && contexts == old(contexts)
      ensures a.fail.None? ==>
        && h == Some(IdAfter(old(draws))) && draws == old(draws) + 1
        && h.value in discoveryRegs && discoveryRegs[h.value].callback == callback
        && View() == WithRegistration(old(View()), h.value, a.addr)
    {
      var ctx := new DiscoveryTrampolineCtx(a.addr, callback);
      contexts := contexts[a.addr := ctx];
      if a.fail.Some? {
        contexts := contexts - {a.addr};
        assert contexts == old(contexts);
        return None;
      }
      var id := StoreContext(ctx, old(contexts));
      return Some(id);
    }

    /** The SDK accepted the latest context. */
    method StoreContext(ctx: DiscoveryTrampolineCtx, ghost others: map<Addr, DiscoveryTrampolineCtx>) returns (h: Id)
      requires Valid() && IdAfter(draws) !in discoveryRegs
      requires ctx.addr !in others && OneEach(discoveryRegs, others) && contexts == others[ctx.addr := ctx]
      modifies `counter, `draws, `discoveryRegs
      ensures Valid() && OneEach(discoveryRegs, contexts) && h == IdAfter(old(draws)) && draws == old(draws) + 1
      ensures discoveryRegs == old(discoveryRegs)[h := ctx]
      ensures View() == WithRegistration(old(View()), h, ctx.addr)
    {
      h := NextU64();
      discoveryRegs := discoveryRegs[h := ctx];
      OneEachGains(old(discoveryRegs), others, h, ctx);
    }

    /** The allocator never returns the address of a live context. */
    method RegisterDiscovery(cb: Id, a: Answer) returns (r: Reply)
      requires Valid() && OneEach(discoveryRegs, contexts) && a.addr !in contexts
      requires IdAfter(draws) !in discoveryRegs
      modifies `counter, `draws, `discoveryRegs, `contexts
      ensures Valid() && (View(), r) == Serve(old(View()), Call.RegisterDiscovery(cb), a)
      ensures FailsWith(cb in discoveryCallbacks, DiscoveryCallbackId, a.fail, r)
      ensures r.Failed? ==> discoveryRegs == old(discoveryRegs) && contexts == old(contexts)
      ensures OneEach(discoveryRegs, contexts)
      ensures r.Got? ==>
        cb in discoveryCallbacks && r.id in discoveryRegs && discoveryRegs[r.id].callback == discoveryCallbacks[cb]
    {
      RegisterServed(View(), cb, a);
      if cb !in discoveryCallbacks {
        return Failed(InvalidString(DiscoveryCallbackId));
      }
      var h := OfferContext(discoveryCallbacks[cb], a);
      if h.None? {
        return Failed(a.fail.value);
      }
      return Got(h.value);
    }

    /** Takes a context out of the table and reclaims it: the SDK has been asked
        to unregister in between. */
    method ReclaimContext(reg: Id)
      requires reg in discoveryRegs
      modifies `discoveryRegs, `contexts
      ensures discoveryRegs == old(discoveryRegs) - {reg}
      ensures contexts == old(contexts) - {old(discoveryRegs)[reg].addr}
    {
      var ctx := discoveryRegs[reg];
      discoveryRegs := discoveryRegs - {reg};
      contexts := contexts - {ctx.addr};
    }

    method UnregisterDiscovery(reg: Id, a: Answer)
      requires Valid() && OneEach(discoveryRegs, contexts)
      modifies `discoveryRegs, `contexts
      ensures Valid() && (View(), Done) == Serve(old(View()), Call.UnregisterDiscovery(reg), a)
      ensures discoveryRegs == old(discoveryRegs) - {reg}
      ensures OneEach(discoveryRegs, contexts)
    {
      if reg !in discoveryRegs {
        assert Registered(discoveryRegs) - {reg} == Registered(discoveryRegs);
        return;
      }
      OneEachLoses(discoveryRegs, contexts, reg);
      ReclaimContext(reg);
    }

    // --- Callback installation ------------------------------------------

    method InstallFrameCallback(closure: Closure, a: Answer) returns (id: Id)
      requires Valid()
      modifies `counter, `draws, `frameCallbacks
      ensures Valid() && (View(), Got(id)) == Serve(old(View()), Call.InstallFrameCallback(closure), a)
      ensures frameCallbacks == old(frameCallbacks)[id := closure]
    {
      id := NextU64();
      frameCallbacks := frameCallbacks[id := closure];
    }

    method UninstallFrameCallback(id: Id, a: Answer)
      requires Valid()
      modifies `frameCallbacks
      ensures Valid() && (View(), Done) == Serve(old(View()), Call.UninstallFrameCallback(id), a)
      ensures frameCallbacks == old(frameCallbacks) - {id}
    {
      frameCallbacks := frameCallbacks - {id};
    }

    method InstallDiscoveryCallback(closure: Closure, a: Answer) returns (id: Id)
      requires Valid()
      modifies `counter, `draws, `discoveryCallbacks
      ensures Valid() && (View(), Got(id)) == Serve(old(View()), Call.InstallDiscoveryCallback(closure), a)
      ensures discoveryCallbacks == old(discoveryCallbacks)[id := closure]
    {
      id := NextU64();
      discoveryCallbacks := discoveryCallbacks[id := closure];
    }

    method UninstallDiscoveryCallback(id: Id, a: Answer)
      requires Valid()
      modifies `discoveryCallbacks
      ensures Valid() && (View(), Done) == Serve(old(View()), Call.UninstallDiscoveryCallback(id), a)
      ensures discoveryCallbacks == old(discoveryCallbacks) - {id}
    {
      discoveryCallbacks := discoveryCallbacks - {id};
    }

    // --- The frame trampoline -------------------------------------------

    ghost method Mark(p: Addr, s: Status)
      requires p in sdk.frames
      modifies `sdk
      ensures View() == SetStatus(old(View()), p, s)
    {
      sdk := sdk.(frames := sdk.frames[p := sdk.frames[p].(status := s)]);
    }

    /** The trampoline on a frame the SDK has just put in flight, up to the
        return of the callback. What its safety section demands of the SDK is
        required: the frame and the context its `context[0]` names are live.
        `complete` is a receive status of zero. Returns the callback it invoked
        and the context to hand the frame back through, if it comes to that. */
    method DispatchFrame(p: Addr, complete: bool, panics: bool)
      returns (invoked: Option<FrameCallback>, again: bool)
      requires Valid() && p in sdk.frames && sdk.frames[p].status == Entered(complete)
      requires Reaches(View(), p)
      modifies `sdk, `history
      ensures Valid() && View() == RunCallback(old(View()), p, panics)
      ensures invoked == if memory[p].context0.Some? && complete
                         then Some(memory[memory[p].context0.value].callback) else None
      ensures history.invoked
           == old(history.invoked) + if invoked.Some? then [Invocation(p, invoked.value)] else []
      ensures again <==> memory[p].context0.Some? && !(complete && panics)
      ensures sdk.frames[p].status
           == if memory[p].context0.None? then Retired(NullContext)
              else if complete && panics then Retired(CallbackPanicked) else Returning
    {
      var frame := memory[p];
      if frame.context0.None? {
        Mark(p, Retired(NullContext));
        return None, false;
      }
      var ctx := memory[frame.context0.value];
      invoked := None;
      if complete {
        invoked := Some(ctx.callback);
        history := Logged(history, p, invoked);
        if panics {
          Mark(p, Retired(CallbackPanicked));
          return invoked, false;
        }
      }
      Mark(p, Returning);
      return invoked, true;
    }

    /** The rest of the trampoline: the frame is handed back. */
    method HandFrameBack(p: Addr, accepted: bool)
      requires Valid() && p in sdk.frames && sdk.frames[p].status == Returning
      requires Reaches(View(), p)
      modifies `sdk
      ensures Valid() && View() == HandBack(old(View()), p, accepted)
      ensures sdk.frames[p].status == if accepted then Queued else Retired(RequeueRefused)
    {
      Mark(p, if accepted then Queued else Retired(RequeueRefused));
    }

    /** Both stages with nothing in between; the stages are also callable one
        at a time, with port calls and other trampolines between them. */
    method FrameCallbackTrampoline(p: Addr, complete: bool, panics: bool, accepted: bool)
      returns (invoked: Option<FrameCallback>)
      requires Valid() && p in sdk.frames && sdk.frames[p].status == Entered(complete)
      requires Reaches(View(), p)
      modifies `sdk, `history
      ensures Valid() && View() == HandBack(RunCallback(old(View()), p, panics), p, accepted)
      ensures invoked == Callee(old(View()), p)
    {
      var again;
      invoked, again := DispatchFrame(p, complete, panics);
      if again {
        HandFrameBack(p, accepted);
      }
    }
  }
}
