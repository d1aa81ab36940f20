/** `register_camera_discovery` and `DiscoveryRegistration` over the fake. */
module DiscoveryClient {
  import opened Port
  import opened FakeModel
  import opened FakeRuntime
  import Domain

  /** The calls of `register_camera_discovery`: the fake they leave, the reply
      to the registration and the callback id. */
  function Subscribe(f: Fake, closure: Closure): (Fake, Reply, Id) {
    var cb := IdAfter(f.tables.draws);
    var (f1, _) := Apply(f, InstallDiscoveryCallback(closure));
    var (f2, r) := Apply(f1, RegisterDiscovery(cb));
    if r.Got? then (f2, r, cb) else (Apply(f2, UninstallDiscoveryCallback(cb)).0, r, cb)
  }

  /** The calls of `drop` on a registration that still holds these ids. */
  function Unsubscribe(f: Fake, handle: Option<Id>, cb: Option<Id>): Fake {
    var f1 := if handle.Some? then Apply(f, UnregisterDiscovery(handle.value)).0 else f;
    if cb.Some? then Apply(f1, UninstallDiscoveryCallback(cb.value)).0 else f1
  }

  /** The ids the next two draws issue are not listed. */
  predicate NextIdsUnlisted(t: Tables) {
    IdAfter(t.draws) !in t.discoveryCallbacks && IdAfter(t.draws + 1) !in t.discoveryRegs
  }

  /** Subscribing lists one callback and one registration of it, or, when the
      registration is refused, leaves the tables as found. */
  lemma SubscribeAllOrNothing(f: Fake, closure: Closure)
    requires NextIdsUnlisted(f.tables)
    ensures var (f', r, cb) := Subscribe(f, closure);
      var t := f.tables;
      if r.Got? then
        f'.tables == t.(discoveryCallbacks := t.discoveryCallbacks[cb := closure],
                        discoveryRegs := t.discoveryRegs[r.id := cb],
                        draws := t.draws + 2)
      else r.Failed? && f'.tables == t.(draws := t.draws + 1)
  {
    var t, cb := f.tables, IdAfter(f.tables.draws);
    assert t.discoveryCallbacks[cb := closure] - {cb} == t.discoveryCallbacks;
  }

  lemma UnsubscribeTables(g: Fake, h: Id, cb: Id)
    ensures Unsubscribe(g, Some(h), Some(cb)).tables
         == g.tables.(discoveryCallbacks := g.tables.discoveryCallbacks - {cb},
                      discoveryRegs := g.tables.discoveryRegs - {h})
  {
  }

  /** Dropping a registration takes back exactly what subscribing listed, and
      what it is dropped into may have changed elsewhere in the meantime. */
  lemma DropUndoesSubscribe(f: Fake, closure: Closure, g: Fake)
    requires NextIdsUnlisted(f.tables)
    requires var (f', r, _) := Subscribe(f, closure);
      && r.Got? && g.tables.discoveryCallbacks == f'.tables.discoveryCallbacks
      && g.tables.discoveryRegs == f'.tables.discoveryRegs
    ensures var (f', r, cb) := Subscribe(f, closure);
      Unsubscribe(g, Some(r.id), Some(cb)).tables
      == g.tables.(discoveryCallbacks := f.tables.discoveryCallbacks, discoveryRegs := f.tables.discoveryRegs)
  {
    var t, cb := f.tables, IdAfter(f.tables.draws);
    SubscribeAllOrNothing(f, closure);
    assert t.discoveryCallbacks[cb := closure] - {cb} == t.discoveryCallbacks;
    var h := Subscribe(f, closure).1.id;
    assert t.discoveryRegs[h := cb] - {h} == t.discoveryRegs;
    UnsubscribeTables(g, h, cb);
  }

  // --- Runs of the subscription program ---------------------------------

  function CallsLeft(p: Domain.Phase): nat {
    match p
    case Registering => 2
    case Unregistering(_) => 2
    case Releasing => 1
    case Subscribed(_) => 0
  }

  /** Makes the calls of the subscription `cb` until it is subscribed or gone. */
  function Settle(f: Fake, d: Domain.State, cb: Id): (Fake, Domain.State)
    requires cb in d.regs
    decreases CallsLeft(d.regs[cb].phase)
  {
    if d.regs[cb].phase.Subscribed? then (f, d)
    else
      var (f', r) := Apply(f, Domain.CallOf(d, Domain.Sub(cb)));
      var d' := Domain.Receive(d, Domain.Sub(cb), r);
      if cb in d'.regs then Settle(f', d', cb) else (f', d')
  }

  /** `register_camera_discovery` is a run of the subscription program from its
      install to where it settles: subscribed, or gone after a refusal. */
  lemma SubscribeSettles(f: Fake, d: Domain.State, closure: Closure)
    requires IdAfter(f.tables.draws) !in d.regs
    ensures var (f', r, cb) := Subscribe(f, closure);
      var (f1, r1) := Apply(f, InstallDiscoveryCallback(closure));
      var d1 := Domain.Receive(d, Domain.Registrar(closure), r1);
      && r1 == Got(cb) && cb in d1.regs && Settle(f1, d1, cb).0 == f'
      && Settle(f1, d1, cb).1.regs
         == if r.Got? then d.regs[cb := Domain.Registration(closure, Domain.Subscribed(r.id))] else d.regs
  {
    var cb := IdAfter(f.tables.draws);
    var (f1, r1) := Apply(f, InstallDiscoveryCallback(closure));
    var d1 := Domain.Receive(d, Domain.Registrar(closure), r1);
    var (f2, r2) := Apply(f1, RegisterDiscovery(cb));
    var d2 := Domain.Receive(d1, Domain.Sub(cb), r2);
    assert Settle(f1, d1, cb) == Settle(f2, d2, cb);
    if r2.Got? {
      assert d2.regs == d.regs[cb := Domain.Registration(closure, Domain.Subscribed(r2.id))];
    } else {
      ReleaseSettles(f2, d2, cb);
      assert d2.regs - {cb} == d.regs;
    }
  }

  lemma ReleaseSettles(f: Fake, d: Domain.State, cb: Id)
    requires cb in d.regs && d.regs[cb].phase.Releasing?
    ensures Settle(f, d, cb).0 == Apply(f, UninstallDiscoveryCallback(cb)).0
    ensures Settle(f, d, cb).1.regs == d.regs - {cb}
  {
  }

  /** A drop is a run of it too: from the entry until the subscription is gone. */
  lemma UnsubscribeSettles(f: Fake, d: Domain.State, cb: Id)
    requires cb in d.regs && d.regs[cb].phase.Subscribed?
    ensures var d0 := Domain.Enter(d, Domain.Unsubscribe(cb));
      && Settle(f, d0, cb).0 == Unsubscribe(f, Some(d.regs[cb].phase.handle), Some(cb))
      && Settle(f, d0, cb).1.regs == d.regs - {cb}
  {
    var h, d0 := d.regs[cb].phase.handle, Domain.Enter(d, Domain.Unsubscribe(cb));
    var (f1, r1) := Apply(f, UnregisterDiscovery(h));
    var d1 := Domain.Receive(d0, Domain.Sub(cb), r1);
    assert Settle(f, d0, cb) == Settle(f1, d1, cb);
    ReleaseSettles(f1, d1, cb);
    assert d1.regs - {cb} == d.regs - {cb};
  }

  datatype Subscription = Subscribed(registration: DiscoveryRegistration) | Refused(error: VmbError)

  class DiscoveryRegistration {
    const runtime: Runtime
    var handle: Option<Id>
    var callbackId: Option<Id>

    constructor (runtime: Runtime, handle: Id, callbackId: Id)
      ensures this.runtime == runtime && this.handle == Some(handle) && this.callbackId == Some(callbackId)
    {
      this.runtime, this.handle, this.callbackId := runtime, Some(handle), Some(callbackId);
    }

    static method Register(runtime: Runtime, closure: Closure) returns (result: Subscription)
      requires runtime.Valid()
      modifies runtime
      ensures runtime.Valid()
      ensures var (f, r, cb) := Subscribe(old(runtime.View()), closure);
        && runtime.View() == f
        && match result
           case Refused(e) => r == Failed(e)
           case Subscribed(g) =>
             fresh(g) && g.runtime == runtime && r.Got? && g.handle == Some(r.id) && g.callbackId == Some(cb)
      ensures var cb := IdAfter(old(runtime.draws));
        && runtime.calls == old(runtime.calls) + [InstalledDiscoveryCallback(cb), Plain(RegisterDiscovery(cb))]
                            + (if result.Refused? then [Plain(UninstallDiscoveryCallback(cb))] else [])
        && (result.Subscribed? ==> result.registration.callbackId == Some(cb))
    {
      var cb := runtime.InstallDiscoveryCallback(closure);
      var r := runtime.RegisterDiscovery(cb);
      if r.Got? {
        var g := new DiscoveryRegistration(runtime, r.id, cb);
        return Subscribed(g);
      }
      runtime.UninstallDiscoveryCallback(cb);
      return Refused(r.error);
    }

    /** `Drop`; a second drop would make no call. */
    method Drop()
      requires runtime.Valid()
      modifies this, runtime
      ensures runtime.Valid() && handle.None? && callbackId.None?
      ensures runtime.View() == Unsubscribe(old(runtime.View()), old(handle), old(callbackId))
      ensures runtime.calls == old(runtime.calls)
                               + (if old(handle).Some? then [Plain(UnregisterDiscovery(old(handle).value))] else [])
                               + (if old(callbackId).Some?
                                  then [Plain(UninstallDiscoveryCallback(old(callbackId).value))] else [])
    {
      if handle.Some? {
        var h := handle.value;
        handle := None;
        runtime.UnregisterDiscovery(h);
      }
      if callbackId.Some? {
        var id := callbackId.value;
        callbackId := None;
        runtime.UninstallDiscoveryCallback(id);
      }
    }
  }
}
