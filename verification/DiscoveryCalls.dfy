/** The discovery calls of the FFI adapter as `FfiModel` serves them in one
    piece are the steps of `DiscoveryContexts` with nothing in between. */
module DiscoveryCalls {
  import opened Port
  import Contexts = DiscoveryContexts
  import Ffi = FfiModel

  /** The two models agree on the registration table and the counter, with
      contexts identified by their addresses. */
  predicate Agree(s: Contexts.State, f: Ffi.FfiState) {
    s.regs == f.discoveryRegs && s.draws == f.draws
  }

  function Resume(s: Contexts.State, xs: seq<Contexts.Step>): Contexts.State
    decreases |xs|
  {
    if xs == [] then s else Resume(Contexts.Take(s, xs[0]), xs[1..])
  }

  /** The steps of one `register_discovery` by thread `t`. */
  function Registering(t: Contexts.Thread, fail: Option<VmbError>): seq<Contexts.Step> {
    if fail.None?
    then [Contexts.Allocate(t), Contexts.SdkRegister(t, true), Contexts.Insert(t)]
    else [Contexts.Allocate(t), Contexts.SdkRegister(t, false), Contexts.Reclaim(t)]
  }

  /** The steps of one `unregister_discovery`. */
  function Unregistering(t: Contexts.Thread, r: Id, victim: Option<Contexts.Ctx>): seq<Contexts.Step> {
    [Contexts.Remove(t, r), Contexts.SdkUnregister(t, victim), Contexts.Reclaim(t)]
  }

  lemma ThreeSteps(s: Contexts.State, a: Contexts.Step, b: Contexts.Step, c: Contexts.Step)
    ensures Resume(s, [a, b, c]) == Contexts.Take(Contexts.Take(Contexts.Take(s, a), b), c)
  {
    assert [a, b, c][1..] == [b, c] && [b, c][1..] == [c] && [c][1..] == [];
    var s1 := Contexts.Take(s, a);
    assert Resume(s, [a, b, c]) == Resume(s1, [b, c]);
    assert Resume(s1, [b, c]) == Resume(Contexts.Take(s1, b), [c]);
  }

  lemma AcceptedRegistration(s: Contexts.State, t: Contexts.Thread)
    requires t !in s.calls
    ensures Resume(s, Registering(t, None))
         == s.(issued := s.issued + 1, held := s.held + {s.issued},
               regs := s.regs[IdAfter(s.draws) := s.issued], draws := s.draws + 1)
  {
    ThreeSteps(s, Contexts.Allocate(t), Contexts.SdkRegister(t, true), Contexts.Insert(t));
    var entered := s.calls[t := Contexts.Pending(s.issued, Contexts.Allocated)];
    assert entered[t := entered[t].(stage := Contexts.SdkAccepted)] - {t} == s.calls;
  }

  lemma RefusedRegistration(s: Contexts.State, t: Contexts.Thread, e: VmbError)
    requires t !in s.calls
    ensures Resume(s, Registering(t, Some(e)))
         == s.(issued := s.issued + 1, reclaimed := s.reclaimed + multiset{s.issued})
  {
    ThreeSteps(s, Contexts.Allocate(t), Contexts.SdkRegister(t, false), Contexts.Reclaim(t));
    var entered := s.calls[t := Contexts.Pending(s.issued, Contexts.Allocated)];
    assert entered[t := entered[t].(stage := Contexts.SdkRefused)] - {t} == s.calls;
  }

  /** A registration of an installed callback: the same table and counter in
      both models, and the reply is the handle inserted or the SDK's error. */
  lemma RegisterAgrees(s: Contexts.State, f: Ffi.FfiState, t: Contexts.Thread, cb: Id, a: Answer)
    requires Agree(s, f) && t !in s.calls && cb in f.discoveryCallbacks && a.addr == s.issued
    ensures var (f', r) := Ffi.Serve(f, RegisterDiscovery(cb), a);
      var s' := Resume(s, Registering(t, a.fail));
      && Agree(s', f') && s'.calls == s.calls
      && r == (if a.fail.Some? then Failed(a.fail.value) else Got(IdAfter(s.draws)))
  {
    Ffi.RegisterServed(f, cb, a);
    match a.fail
    case None => AcceptedRegistration(s, t);
    case Some(e) => RefusedRegistration(s, t, e);
  }

  lemma KnownUnregistration(s: Contexts.State, t: Contexts.Thread, r: Id, victim: Option<Contexts.Ctx>)
    requires t !in s.calls && r in s.regs
    ensures Resume(s, Unregistering(t, r, victim))
         == s.(regs := s.regs - {r}, held := Contexts.Without(s.held, victim),
               reclaimed := s.reclaimed + multiset{s.regs[r]})
  {
    ThreeSteps(s, Contexts.Remove(t, r), Contexts.SdkUnregister(t, victim), Contexts.Reclaim(t));
    var removed := s.calls[t := Contexts.Pending(s.regs[r], Contexts.Removed)];
    assert removed[t := removed[t].(stage := Contexts.Released)] - {t} == s.calls;
  }

  lemma UnknownUnregistration(s: Contexts.State, t: Contexts.Thread, r: Id, victim: Option<Contexts.Ctx>)
    requires t !in s.calls && r !in s.regs
    ensures Resume(s, Unregistering(t, r, victim)) == s
  {
    ThreeSteps(s, Contexts.Remove(t, r), Contexts.SdkUnregister(t, victim), Contexts.Reclaim(t));
  }

  /** Unregistering: the same table in both models whatever the SDK drops, and
      no SDK call for a handle that is not registered. */
  lemma UnregisterAgrees(s: Contexts.State, f: Ffi.FfiState, t: Contexts.Thread, r: Id,
                         victim: Option<Contexts.Ctx>, a: Answer)
    requires Agree(s, f) && t !in s.calls
    ensures var s' := Resume(s, Unregistering(t, r, victim));
      && Agree(s', Ffi.Serve(f, UnregisterDiscovery(r), a).0) && s'.calls == s.calls
      && (r !in s.regs ==> s' == s)
  {
    if r in s.regs {
      KnownUnregistration(s, t, r, victim);
    } else {
      UnknownUnregistration(s, t, r, victim);
      assert f.discoveryRegs - {r} == f.discoveryRegs;
    }
  }
}
