/** Who owns the `DiscoveryTrampolineCtx` boxes of the FFI adapter.

    `register_discovery` turns a box into a raw pointer, hands it to the SDK
    and, if the SDK refuses it, reclaims it, else stores it.
    `unregister_discovery` takes it out of the table, asks the SDK to
    unregister, and reclaims it. Any number of threads may be between any two
    of these steps, and any number of SDK workers inside the trampoline. The
    unregister call names the trampoline function, which all registrations
    share, and not the context, so which registration the SDK drops is its own
    choice. */
module DiscoveryContexts {
  import opened Port

  /** The identity of a context: contexts are numbered in allocation order. */
  type Ctx = nat

  type Thread = nat

  /** A thread of the SDK's own. */
  type Worker = nat

  datatype Stage = Allocated | SdkRefused | SdkAccepted | Removed | Released

  datatype Pending = Pending(ctx: Ctx, stage: Stage)

  /** `reclaimed[c]` counts how often context `c` was turned back into a box
      and dropped. `held` are the contexts the SDK may call back with,
      `running` the callbacks in progress, and `faults` counts the reads of a
      context that had been reclaimed. */
  datatype State = State(
    issued: nat,
    reclaimed: multiset<Ctx>,
    regs: map<Id, Ctx>,
    calls: map<Thread, Pending>,
    held: set<Ctx>,
    running: map<Worker, Ctx>,
    faults: nat,
    draws: nat)

  const INITIAL := State(0, multiset{}, map[], map[], {}, map[], 0, 0)

  datatype Step =
    | Allocate(t: Thread)
    | SdkRegister(t: Thread, ok: bool)
    | Insert(t: Thread)
    | Remove(t: Thread, r: Id)
    | SdkUnregister(t: Thread, victim: Option<Ctx>)
    | Reclaim(t: Thread)
    | Notify(k: Worker, c: Ctx)
    | ReadContext(k: Worker)
    | Return(k: Worker)
    | DrawElsewhere

  predicate At(s: State, t: Thread, stage: Stage) {
    t in s.calls && s.calls[t].stage == stage
  }

  predicate MayReclaim(s: State, t: Thread) {
    At(s, t, SdkRefused) || At(s, t, Released)
  }

  function Move(s: State, t: Thread, stage: Stage): State
    requires t in s.calls
  {
    s.(calls := s.calls[t := s.calls[t].(stage := stage)])
  }

  function Take(s: State, x: Step): State {
    match x
    case Allocate(t) =>
      if t in s.calls then s
      else s.(issued := s.issued + 1, calls := s.calls[t := Pending(s.issued, Allocated)])
    case SdkRegister(t, ok) =>
      if !At(s, t, Allocated) then s
      else if ok then Move(s, t, SdkAccepted).(held := s.held + {s.calls[t].ctx})
      else Move(s, t, SdkRefused)
    case Insert(t) =>
      if !At(s, t, SdkAccepted) then s
      else s.(regs := s.regs[IdAfter(s.draws) := s.calls[t].ctx], calls := s.calls - {t}, draws := s.draws + 1)
    case Remove(t, r) =>
      if t in s.calls || r !in s.regs then s
      else s.(regs := s.regs - {r}, calls := s.calls[t := Pending(s.regs[r], Removed)])
    case SdkUnregister(t, victim) =>
      if !At(s, t, Removed) then s
      else Move(s, t, Released).(held := if victim.Some? then s.held - {victim.value} else s.held)
    case Reclaim(t) =>
      if !MayReclaim(s, t) then s
      else s.(reclaimed := s.reclaimed + multiset{s.calls[t].ctx}, calls := s.calls - {t})
    case Notify(k, c) =>
      if k in s.running || c !in s.held then s else s.(running := s.running[k := c])
    case ReadContext(k) =>
      if k in s.running && s.running[k] in s.reclaimed then s.(faults := s.faults + 1) else s
    case Return(k) => s.(running := s.running - {k})
    case DrawElsewhere => s.(draws := s.draws + 1)
  }

  function Run(xs: seq<Step>): State {
    if xs == [] then INITIAL else Take(Run(xs[..|xs| - 1]), xs[|xs| - 1])
  }

  // --- Ownership --------------------------------------------------------

  function InCalls(calls: map<Thread, Pending>): set<Ctx> {
    set t | t in calls :: calls[t].ctx
  }

  /** Every context has exactly one owner: a registration, a call in
      progress, or nobody once it has been reclaimed, once. */
  predicate Owned(s: State) {
    && (forall r <- s.regs :: 1 <= r <= s.draws)
    && (forall r <- s.regs, r' <- s.regs :: s.regs[r] == s.regs[r'] ==> r == r')
    && (forall t <- s.calls, t' <- s.calls :: s.calls[t].ctx == s.calls[t'].ctx ==> t == t')
    && s.regs.Values !! InCalls(s.calls)
    && (forall c <- s.regs.Values + InCalls(s.calls) :: c < s.issued && c !in s.reclaimed)
    && (forall c <- s.reclaimed :: c < s.issued && s.reclaimed[c] == 1)
    && (forall c :: 0 <= c < s.issued && c !in s.reclaimed ==> c in s.regs.Values + InCalls(s.calls))
  }

  lemma CallsGain(calls: map<Thread, Pending>, t: Thread, p: Pending)
    requires t !in calls
    ensures InCalls(calls[t := p]) == InCalls(calls) + {p.ctx}
  {
    var more := calls[t := p];
    assert more[t].ctx in InCalls(more);
    assert forall u <- calls :: more[u].ctx in InCalls(more);
  }

  lemma CallsLose(calls: map<Thread, Pending>, t: Thread)
    requires t in calls && forall t <- calls, t' <- calls :: calls[t].ctx == calls[t'].ctx ==> t == t'
    ensures InCalls(calls - {t}) == InCalls(calls) - {calls[t].ctx}
  {
    var fewer := calls - {t};
    forall c <- InCalls(calls) - {calls[t].ctx}
      ensures c in InCalls(fewer)
    {
      var u :| u in calls && calls[u].ctx == c;
      assert fewer[u].ctx in InCalls(fewer);
    }
  }

  lemma CallsMove(calls: map<Thread, Pending>, t: Thread, stage: Stage)
    requires t in calls
    ensures InCalls(calls[t := calls[t].(stage := stage)]) == InCalls(calls)
  {
    var moved := calls[t := calls[t].(stage := stage)];
    assert forall u <- calls :: moved[u].ctx in InCalls(moved);
  }

  lemma RegsGain(regs: map<Id, Ctx>, r: Id, c: Ctx)
    requires r !in regs
    ensures regs[r := c].Values == regs.Values + {c}
  {
    var more := regs[r := c];
    assert more[r] in more.Values;
    assert forall u <- regs :: more[u] in more.Values;
  }

  lemma RegsLose(regs: map<Id, Ctx>, r: Id)
    requires r in regs && forall r <- regs, r' <- regs :: regs[r] == regs[r'] ==> r == r'
    ensures (regs - {r}).Values == regs.Values - {regs[r]}
  {
    var fewer := regs - {r};
    forall c <- regs.Values - {regs[r]}
      ensures c in fewer.Values
    {
      var u :| u in regs && regs[u] == c;
      assert fewer[u] in fewer.Values;
    }
  }

  lemma AllocateKeepsOwned(s: State, t: Thread)
    requires Owned(s) && t !in s.calls
    ensures Owned(Take(s, Allocate(t)))
  {
    var s' := Take(s, Allocate(t));
    CallsGain(s.calls, t, Pending(s.issued, Allocated));
  }

  lemma MoveKeepsOwned(s: State, t: Thread, stage: Stage, held: set<Ctx>)
    requires Owned(s) && t in s.calls
    ensures Owned(Move(s, t, stage).(held := held))
  {
    CallsMove(s.calls, t, stage);
  }

  lemma InsertKeepsOwned(s: State, t: Thread)
    requires Owned(s) && At(s, t, SdkAccepted) && s.draws + 1 < U64
    ensures Owned(Take(s, Insert(t)))
  {
    UnwrappedId(s.draws);
    var s', c, r := Take(s, Insert(t)), s.calls[t].ctx, s.draws + 1;
    assert c in InCalls(s.calls);
    assert r !in s.regs;
    RegsGain(s.regs, r, c);
    CallsLose(s.calls, t);
  }

  lemma RemoveKeepsOwned(s: State, t: Thread, r: Id)
    requires Owned(s) && t !in s.calls && r in s.regs
    ensures Owned(Take(s, Remove(t, r)))
  {
    var s', c := Take(s, Remove(t, r)), s.regs[r];
    assert c in s.regs.Values;
    RegsLose(s.regs, r);
    CallsGain(s.calls, t, Pending(c, Removed));
  }

  lemma ReclaimKeepsOwned(s: State, t: Thread)
    requires Owned(s) && MayReclaim(s, t)
    ensures Owned(Take(s, Reclaim(t)))
  {
    var s', c := Take(s, Reclaim(t)), s.calls[t].ctx;
    assert c in InCalls(s.calls);
    CallsLose(s.calls, t);
  }

  lemma StepKeepsOwned(s: State, x: Step)
    requires Owned(s) && Take(s, x).draws < U64
    ensures Owned(Take(s, x))
  {
    match x
    case Allocate(t) => if t !in s.calls { AllocateKeepsOwned(s, t); }
    case SdkRegister(t, ok) =>
      if At(s, t, Allocated) {
        MoveKeepsOwned(s, t, if ok then SdkAccepted else SdkRefused, Take(s, x).held);
      }
    case Insert(t) => if At(s, t, SdkAccepted) { InsertKeepsOwned(s, t); }
    case Remove(t, r) => if t !in s.calls && r in s.regs { RemoveKeepsOwned(s, t, r); }
    case SdkUnregister(t, _) => if At(s, t, Removed) { MoveKeepsOwned(s, t, Released, Take(s, x).held); }
    case Reclaim(t) => if MayReclaim(s, t) { ReclaimKeepsOwned(s, t); }
    case _ =>
  }

  lemma {:induction false} RunsKeepOwned(xs: seq<Step>)
    requires Run(xs).draws < U64
    ensures Owned(Run(xs))
  {
    if xs != [] {
      RunsKeepOwned(xs[..|xs| - 1]);
      StepKeepsOwned(Run(xs[..|xs| - 1]), xs[|xs| - 1]);
    }
  }

  /** In every run each context is reclaimed at most once, and the contexts
      not reclaimed are exactly those in the registration table and those of
      calls in progress -- whatever the SDK refuses and whichever registration
      it drops. */
  lemma ContextsAreOwned(xs: seq<Step>, c: Ctx)
    requires Run(xs).draws < U64 && c < Run(xs).issued
    ensures var s := Run(xs);
      && s.reclaimed[c] <= 1
      && (s.reclaimed[c] == 0 <==> c in s.regs.Values || c in InCalls(s.calls))
      && !(c in s.regs.Values && c in InCalls(s.calls))
  {
    RunsKeepOwned(xs);
    assert c in Run(xs).regs.Values + InCalls(Run(xs).calls) || c in Run(xs).reclaimed;
  }

  /** With no call in progress, a context whose registration failed or was
      dropped has been reclaimed exactly once, and no other has. */
  lemma ReclaimedExactlyOnce(xs: seq<Step>, c: Ctx)
    requires Run(xs).draws < U64 && c < Run(xs).issued && Run(xs).calls == map[]
    ensures Run(xs).reclaimed[c] == if c in Run(xs).regs.Values then 0 else 1
  {
    ContextsAreOwned(xs, c);
  }

  // --- Pointers the SDK still holds -------------------------------------

  /** Every context the SDK may call back with is still there. */
  predicate Safe(s: State) {
    forall c <- s.held :: c !in s.reclaimed
  }

  /** The registration an unregister call drops is the one it was meant for. */
  predicate Matches(s: State, x: Step) {
    x.SdkUnregister? && At(s, x.t, Removed) ==> x.victim == Some(s.calls[x.t].ctx)
  }

  predicate Matching(xs: seq<Step>) {
    xs == [] || (Matching(xs[..|xs| - 1]) && Matches(Run(xs[..|xs| - 1]), xs[|xs| - 1]))
  }

  predicate AtSdk(stage: Stage) {
    stage.SdkAccepted? || stage.Removed?
  }

  /** The SDK holds exactly the contexts of the registrations, of the calls it
      has accepted and of the calls about to unregister. */
  predicate HeldInStep(s: State) {
    && (forall r <- s.regs :: s.regs[r] in s.held)
    && (forall t <- s.calls :: s.calls[t].ctx in s.held <==> AtSdk(s.calls[t].stage))
    && (forall c <- s.held :: c in s.regs.Values + InCalls(s.calls))
  }

  lemma AllocateKeepsHeld(s: State, t: Thread)
    requires Owned(s) && HeldInStep(s) && t !in s.calls
    ensures HeldInStep(Take(s, Allocate(t)))
  {
    CallsGain(s.calls, t, Pending(s.issued, Allocated));
  }

  lemma RegisterKeepsHeld(s: State, t: Thread, ok: bool)
    requires Owned(s) && HeldInStep(s) && At(s, t, Allocated)
    ensures HeldInStep(Take(s, SdkRegister(t, ok)))
  {
    assert s.calls[t].ctx in InCalls(s.calls);
    CallsMove(s.calls, t, if ok then SdkAccepted else SdkRefused);
  }

  lemma InsertKeepsHeld(s: State, t: Thread)
    requires Owned(s) && HeldInStep(s) && At(s, t, SdkAccepted) && s.draws + 1 < U64
    ensures HeldInStep(Take(s, Insert(t)))
  {
    UnwrappedId(s.draws);
    RegsGain(s.regs, s.draws + 1, s.calls[t].ctx);
    CallsLose(s.calls, t);
  }

  lemma RemoveKeepsHeld(s: State, t: Thread, r: Id)
    requires Owned(s) && HeldInStep(s) && t !in s.calls && r in s.regs
    ensures HeldInStep(Take(s, Remove(t, r)))
  {
    RegsLose(s.regs, r);
    CallsGain(s.calls, t, Pending(s.regs[r], Removed));
  }

  lemma UnregisterKeepsHeld(s: State, t: Thread)
    requires Owned(s) && HeldInStep(s) && At(s, t, Removed)
    ensures HeldInStep(Take(s, SdkUnregister(t, Some(s.calls[t].ctx))))
  {
    assert s.calls[t].ctx in InCalls(s.calls);
    CallsMove(s.calls, t, Released);
  }

  lemma ReclaimKeepsHeld(s: State, t: Thread)
    requires Owned(s) && HeldInStep(s) && MayReclaim(s, t)
    ensures HeldInStep(Take(s, Reclaim(t)))
  {
    CallsLose(s.calls, t);
  }

  lemma StepKeepsHeld(s: State, x: Step)
    requires Owned(s) && HeldInStep(s) && Matches(s, x) && Take(s, x).draws < U64
    ensures HeldInStep(Take(s, x))
  {
    match x
    case Allocate(t) => if t !in s.calls { AllocateKeepsHeld(s, t); }
    case SdkRegister(t, ok) => if At(s, t, Allocated) { RegisterKeepsHeld(s, t, ok); }
    case Insert(t) => if At(s, t, SdkAccepted) { InsertKeepsHeld(s, t); }
    case Remove(t, r) => if t !in s.calls && r in s.regs { RemoveKeepsHeld(s, t, r); }
    case SdkUnregister(t, _) => if At(s, t, Removed) { UnregisterKeepsHeld(s, t); }
    case Reclaim(t) => if MayReclaim(s, t) { ReclaimKeepsHeld(s, t); }
    case _ =>
  }

  lemma DrawsGrow(s: State, x: Step)
    ensures s.draws <= Take(s, x).draws
  {
  }

  lemma {:induction false} MatchingRunsKeepHeld(xs: seq<Step>)
    requires Matching(xs) && Run(xs).draws < U64
    ensures HeldInStep(Run(xs))
  {
    if xs != [] {
      DrawsGrow(Run(xs[..|xs| - 1]), xs[|xs| - 1]);
      RunsKeepOwned(xs[..|xs| - 1]);
      MatchingRunsKeepHeld(xs[..|xs| - 1]);
      StepKeepsHeld(Run(xs[..|xs| - 1]), xs[|xs| - 1]);
    }
  }

  /** If every unregister call drops the registration it was meant for, the SDK
      never holds a reclaimed context, in any interleaving. */
  lemma MatchingRunsAreSafe(xs: seq<Step>)
    requires Matching(xs) && Run(xs).draws < U64
    ensures Safe(Run(xs))
  {
    RunsKeepOwned(xs);
    MatchingRunsKeepHeld(xs);
  }

  // --- Callbacks in progress --------------------------------------------

  /** An unregister call returns only once no callback with the context it
      drops is running. */
  predicate Blocks(s: State, x: Step) {
    x.SdkUnregister? && At(s, x.t, Removed) && x.victim.Some? ==> x.victim.value !in s.running.Values
  }

  predicate Blocking(xs: seq<Step>) {
    xs == [] || (Blocking(xs[..|xs| - 1]) && Blocks(Run(xs[..|xs| - 1]), xs[|xs| - 1]))
  }

  predicate RunningHeld(s: State) {
    forall k <- s.running :: s.running[k] in s.held
  }

  lemma StepKeepsRunning(s: State, x: Step)
    requires RunningHeld(s) && Blocks(s, x)
    ensures RunningHeld(Take(s, x))
  {
    if x.SdkUnregister? && At(s, x.t, Removed) {
      forall k <- s.running
        ensures s.running[k] in Without(s.held, x.victim)
      {
        assert s.running[k] in s.running.Values;
      }
    }
  }

  lemma SafeReadsDoNotFault(s: State, x: Step)
    requires Safe(s) && RunningHeld(s)
    ensures Take(s, x).faults == s.faults
  {
  }

  /** If every unregister call drops the registration it was meant for and
      waits for the callbacks of that registration, then no running callback
      ever reads a reclaimed context, in any interleaving. */
  lemma {:induction false} CallbacksReadLiveContexts(xs: seq<Step>)
    requires Matching(xs) && Blocking(xs) && Run(xs).draws < U64
    ensures Run(xs).faults == 0 && RunningHeld(Run(xs)) && Safe(Run(xs))
  {
    MatchingRunsAreSafe(xs);
    if xs != [] {
      var front := xs[..|xs| - 1];
      DrawsGrow(Run(front), xs[|xs| - 1]);
      CallbacksReadLiveContexts(front);
      StepKeepsRunning(Run(front), xs[|xs| - 1]);
      SafeReadsDoNotFault(Run(front), xs[|xs| - 1]);
    }
  }

  // --- When unregistering is safe ---------------------------------------

  /** The states such a run ends in. */
  ghost predicate Reachable(s: State) {
    exists xs :: Matching(xs) && Run(xs) == s && s.draws < U64
  }

  /** Wherever such a run has got to, the next unregister call leaves the SDK
      without a reclaimed context exactly when it drops its own. */
  lemma UnregisterIsSafeIff(s: State, t: Thread, victim: Option<Ctx>)
    requires Reachable(s) && At(s, t, Removed)
    ensures Safe(Finish(s, t, victim)) <==> victim == Some(s.calls[t].ctx)
  {
    var xs :| Matching(xs) && Run(xs) == s;
    RunsKeepOwned(xs);
    MatchingRunsKeepHeld(xs);
    MatchingRunsAreSafe(xs);
    Finished(s, t, victim);
    SafeWithoutIff(s.held, s.reclaimed, s.calls[t].ctx, victim);
  }

  /** The rest of an unregister call, from the SDK's side to the reclaim. */
  function Finish(s: State, t: Thread, victim: Option<Ctx>): State {
    Take(Take(s, SdkUnregister(t, victim)), Reclaim(t))
  }

  function Without(held: set<Ctx>, victim: Option<Ctx>): set<Ctx> {
    if victim.Some? then held - {victim.value} else held
  }

  lemma Finished(s: State, t: Thread, victim: Option<Ctx>)
    requires At(s, t, Removed)
    ensures Finish(s, t, victim).reclaimed == s.reclaimed + multiset{s.calls[t].ctx}
    ensures Finish(s, t, victim).held == Without(s.held, victim)
    ensures Finish(s, t, victim).running == s.running && Finish(s, t, victim).faults == s.faults
  {
    assert s.calls[t].(stage := Released).ctx == s.calls[t].ctx;
  }

  lemma SafeWithoutIff(held: set<Ctx>, reclaimed: multiset<Ctx>, c: Ctx, victim: Option<Ctx>)
    requires c in held && forall d <- held :: d !in reclaimed
    ensures (forall d <- Without(held, victim) :: d !in reclaimed + multiset{c}) <==> victim == Some(c)
  {
    if victim != Some(c) {
      assert c in Without(held, victim);
    }
  }

  /** The SDK unregisters something whenever it holds something. */
  predicate Obliges(s: State, x: Step) {
    x.SdkUnregister? && At(s, x.t, Removed) && s.held != {} ==> x.victim.Some? && x.victim.value in s.held
  }

  /** Whatever the SDK chooses to drop, the rest of the unregister call of
      thread `t` leaves it without a reclaimed context. */
  ghost predicate SafeWhateverIsDropped(s: State, t: Thread) {
    forall victim :: Obliges(s, SdkUnregister(t, victim)) ==> Safe(Finish(s, t, victim))
  }

  /** What a caller can check beforehand: wherever such a run has got to, an
      unregister call is safe whatever the SDK drops exactly when the SDK holds
      no context but the one being unregistered. */
  lemma UnregisterIsSafeForCallerIff(s: State, t: Thread)
    requires Reachable(s) && At(s, t, Removed)
    ensures SafeWhateverIsDropped(s, t) <==> s.held == {s.calls[t].ctx}
  {
    var c := s.calls[t].ctx;
    OwnContextIsHeld(s, t);
    if s.held == {c} {
      forall victim | Obliges(s, SdkUnregister(t, victim))
        ensures Safe(Finish(s, t, victim))
      {
        UnregisterIsSafeIff(s, t, victim);
      }
    } else {
      var other :| other in s.held && other != c;
      UnregisterIsSafeIff(s, t, Some(other));
      assert Obliges(s, SdkUnregister(t, Some(other)));
    }
  }

  lemma OwnContextIsHeld(s: State, t: Thread)
    requires Reachable(s) && At(s, t, Removed)
    ensures s.calls[t].ctx in s.held
  {
    var xs :| Matching(xs) && Run(xs) == s;
    MatchingRunsKeepHeld(xs);
  }

  /** When an unregister call is made the SDK holds at most one context. */
  predicate Single(s: State, x: Step) {
    x.SdkUnregister? && At(s, x.t, Removed) ==> forall c <- s.held, d <- s.held :: c == d
  }

  predicate OneAtATime(xs: seq<Step>) {
    xs == [] || (var s, x := Run(xs[..|xs| - 1]), xs[|xs| - 1];
                 OneAtATime(xs[..|xs| - 1]) && Obliges(s, x) && Single(s, x))
  }

  /** With at most one context at the SDK whenever one is unregistered, the SDK
      has no choice, so naming only the trampoline is enough. */
  lemma {:induction false} OneAtATimeMatches(xs: seq<Step>)
    requires OneAtATime(xs) && Run(xs).draws < U64
    ensures Matching(xs) && Safe(Run(xs))
  {
    if xs != [] {
      var s, x := Run(xs[..|xs| - 1]), xs[|xs| - 1];
      DrawsGrow(s, x);
      OneAtATimeMatches(xs[..|xs| - 1]);
      MatchingRunsKeepHeld(xs[..|xs| - 1]);
      if x.SdkUnregister? && At(s, x.t, Removed) {
        assert s.calls[x.t].ctx in s.held;
      }
    }
    MatchingRunsAreSafe(xs);
  }

  lemma RunOneMore(xs: seq<Step>, x: Step)
    ensures Run(xs + [x]) == Take(Run(xs), x)
    ensures Matching(xs + [x]) <==> Matching(xs) && Matches(Run(xs), x)
  {
    var ys := xs + [x];
    assert ys[..|ys| - 1] == xs && ys[|ys| - 1] == x;
  }

  /** Two registrations are enough to break it: whatever matching run leads
      there, if the SDK holds a second context when one is unregistered it may
      drop that one, and its next event reads the reclaimed context. */
  lemma SecondContextCanDangle(xs: seq<Step>, t: Thread, other: Ctx, k: Worker)
    requires Matching(xs) && Run(xs).draws < U64 && At(Run(xs), t, Removed) && k !in Run(xs).running
    requires other in Run(xs).held && other != Run(xs).calls[t].ctx
    ensures Obliges(Run(xs), SdkUnregister(t, Some(other)))
    ensures var c := Run(xs).calls[t].ctx;
      Run(xs + [SdkUnregister(t, Some(other))] + [Reclaim(t)] + [Notify(k, c)] + [ReadContext(k)]).faults
      == Run(xs).faults + 1
  {
    var s, c := Run(xs), Run(xs).calls[t].ctx;
    MatchingRunsKeepHeld(xs);
    var a := xs + [SdkUnregister(t, Some(other))];
    RunOneMore(xs, SdkUnregister(t, Some(other)));
    RunOneMore(a, Reclaim(t));
    assert Run(a + [Reclaim(t)]) == Finish(s, t, Some(other));
    Finished(s, t, Some(other));
    RunOneMore(a + [Reclaim(t)], Notify(k, c));
    RunOneMore(a + [Reclaim(t)] + [Notify(k, c)], ReadContext(k));
    DanglingEventFaults(Finish(s, t, Some(other)), k, c);
  }

  lemma DanglingEventFaults(s: State, k: Worker, c: Ctx)
    requires c in s.held && c in s.reclaimed && k !in s.running
    ensures Take(Take(s, Notify(k, c)), ReadContext(k)).faults == s.faults + 1
  {
  }

  lemma SecondContextIsReachable() returns (xs: seq<Step>)
    ensures Matching(xs) && Run(xs).draws < U64 && At(Run(xs), 0, Removed)
    ensures Run(xs).held == {0, 1} && Run(xs).calls[0].ctx == 0
  {
    xs := RegisteredBy(0, []);
    assert Run(xs) == State(1, multiset{}, map[1 := 0], map[], {0}, map[], 0, 1);
    xs := RegisteredBy(1, xs);
    assert Run(xs) == State(2, multiset{}, map[1 := 0, 2 := 1], map[], {0, 1}, map[], 0, 2);
    RunOneMore(xs, Remove(0, 1));
    xs := xs + [Remove(0, 1)];
  }

  lemma RegisteredBy(t: Thread, xs: seq<Step>) returns (ys: seq<Step>)
    requires Matching(xs) && t !in Run(xs).calls && Run(xs).draws < 2
    ensures Matching(ys)
    ensures var s := Run(xs);
      Run(ys) == s.(issued := s.issued + 1, held := s.held + {s.issued},
                    regs := s.regs[s.draws + 1 := s.issued], draws := s.draws + 1)
  {
    var s := Run(xs);
    RunOneMore(xs, Allocate(t));
    ys := xs + [Allocate(t)];
    RunOneMore(ys, SdkRegister(t, true));
    ys := ys + [SdkRegister(t, true)];
    RunOneMore(ys, Insert(t));
    ys := ys + [Insert(t)];
    UnwrappedId(s.draws);
    assert Run(ys).calls == s.calls;
  }
}
