/** The process-global `STARTED` flag, one atomic step at a time: the
    compare-and-swap and the `VmbStartup` call of a startup, the store that
    rolls a failed one back, the swap and the `VmbShutdown` call of a drop.
    Any number of threads may be anywhere in between. */
module Started {
  import opened Port

  /** A party is one `VmbSystem::startup` and the system it yields. */
  type Party = nat

  /** Where a party is: it won the swap, its `VmbStartup` failed, its system is
      alive, or its drop has swapped the flag and not called `VmbShutdown`. */
  datatype Stage = Claimed | RollingBack | Live | ShuttingDown

  /** `running` is the SDK's own state. `missed` counts drops whose swap read
      false, which would skip `VmbShutdown`. */
  datatype Process = Process(
    flag: bool,
    running: bool,
    parties: map<Party, Stage>,
    startups: nat,
    shutdowns: nat,
    missed: nat)

  const AT_REST := Process(false, false, map[], 0, 0, 0)

  datatype Step =
    | Swap(p: Party)
    | CallStartup(p: Party, ok: bool)
    | RollBack(p: Party)
    | SwapOut(p: Party)
    | CallShutdown(p: Party)

  predicate Within(s: Process, p: Party, stage: Stage) {
    p in s.parties && s.parties[p] == stage
  }

  predicate Wins(s: Process, x: Step) {
    x.Swap? && x.p !in s.parties && !s.flag
  }

  function Take(s: Process, x: Step): Process {
    match x
    case Swap(p) =>
      if Wins(s, x) then s.(flag := true, parties := s.parties[p := Claimed]) else s
    case CallStartup(p, ok) =>
      if !Within(s, p, Claimed) then s
      else if ok then s.(running := true, startups := s.startups + 1, parties := s.parties[p := Live])
      else s.(parties := s.parties[p := RollingBack])
    case RollBack(p) =>
      if Within(s, p, RollingBack) then s.(flag := false, parties := s.parties - {p}) else s
    case SwapOut(p) =>
      if !Within(s, p, Live) then s
      else if s.flag then s.(flag := false, parties := s.parties[p := ShuttingDown])
      else s.(parties := s.parties - {p}, missed := s.missed + 1)
    case CallShutdown(p) =>
      if Within(s, p, ShuttingDown)
      then s.(running := false, shutdowns := s.shutdowns + 1, parties := s.parties - {p}) else s
  }

  function Resume(s: Process, xs: seq<Step>): Process {
    if xs == [] then s else Take(Resume(s, xs[..|xs| - 1]), xs[|xs| - 1])
  }

  function Run(xs: seq<Step>): Process {
    Resume(AT_REST, xs)
  }

  function In(s: Process, stage: Stage): set<Party> {
    set p | p in s.parties && s.parties[p] == stage
  }

  /** The parties between winning the swap and giving the flag back. */
  function Holders(s: Process): set<Party> {
    set p | p in s.parties && !s.parties[p].ShuttingDown?
  }

  // --- The flag is a unique token ---------------------------------------

  predicate TokenHeld(s: Process) {
    if s.flag then exists p :: p in s.parties && Holders(s) == {p} else Holders(s) == {}
  }

  predicate Balanced(s: Process) {
    s.startups == s.shutdowns + |In(s, Live)| + |In(s, ShuttingDown)|
  }

  lemma StepKeepsToken(s: Process, x: Step)
    requires TokenHeld(s)
    ensures TokenHeld(Take(s, x)) && Take(s, x).missed == s.missed
  {
    var s' := Take(s, x);
    match x
    case Swap(p) =>
      if Wins(s, x) {
        assert Holders(s') == Holders(s) + {p};
      }
    case CallStartup(p, ok) => assert Holders(s') == Holders(s);
    case RollBack(p) =>
      if Within(s, p, RollingBack) {
        assert p in Holders(s);
        assert Holders(s') == Holders(s) - {p};
      }
    case SwapOut(p) =>
      if Within(s, p, Live) {
        assert p in Holders(s);
        assert s'.parties == s.parties[p := ShuttingDown];
        assert p !in Holders(s');
        assert forall r :: r != p ==> (r in Holders(s') <==> r in Holders(s));
        assert Holders(s') == Holders(s) - {p};
      }
    case CallShutdown(p) => assert Holders(s') == Holders(s);
  }

  lemma LiveHoldsAlone(s: Process, p: Party)
    requires TokenHeld(s) && Within(s, p, Live)
    ensures s.flag && forall q <- s.parties :: q == p || s.parties[q].ShuttingDown?
  {
    assert p in Holders(s);
    forall q <- s.parties
      ensures q == p || s.parties[q].ShuttingDown?
    {
      assert q in Holders(s) || s.parties[q].ShuttingDown?;
    }
  }

  lemma MoveBalances(s: Process, p: Party, to: Option<Stage>, s': Process)
    requires Moves(s, p, to, s')
    ensures forall stage ::
      In(s', stage) == if to == Some(stage) then In(s, stage) + {p} else In(s, stage) - {p}
  {
  }

  predicate Moves(s: Process, p: Party, to: Option<Stage>, s': Process) {
    s'.parties == if to.Some? then s.parties[p := to.value] else s.parties - {p}
  }

  lemma StepMoves(s: Process, x: Step)
    requires Take(s, x) != s
    ensures Moves(s, x.p, if x.p in Take(s, x).parties then Some(Take(s, x).parties[x.p]) else None, Take(s, x))
    ensures x.Swap? ==> x.p !in s.parties
    ensures x.CallStartup? ==> Within(s, x.p, Claimed)
    ensures x.RollBack? ==> Within(s, x.p, RollingBack)
    ensures x.SwapOut? ==> Within(s, x.p, Live)
    ensures x.CallShutdown? ==> Within(s, x.p, ShuttingDown)
  {
  }

  /** The two stages that are counted. */
  lemma MoveCounts(s: Process, p: Party, to: Option<Stage>, s': Process, stage: Stage)
    requires Moves(s, p, to, s')
    ensures |In(s', stage)| == |In(s, stage)| + (if to == Some(stage) then 1 else 0)
                                              - (if Within(s, p, stage) then 1 else 0)
  {
    MoveBalances(s, p, to, s');
    assert In(s', stage) == if to == Some(stage) then In(s, stage) + {p} else In(s, stage) - {p};
    assert p in In(s, stage) <==> Within(s, p, stage);
  }

  lemma StepKeepsBalance(s: Process, x: Step)
    requires TokenHeld(s) && Balanced(s)
    ensures Balanced(Take(s, x))
  {
    var s' := Take(s, x);
    if s' != s {
      var to := if x.p in s'.parties then Some(s'.parties[x.p]) else None;
      StepMoves(s, x);
      MoveCounts(s, x.p, to, s', Live);
      MoveCounts(s, x.p, to, s', ShuttingDown);
      if x.SwapOut? {
        LiveHoldsAlone(s, x.p);
      }
    }
  }

  lemma {:induction false} ResumeKeepsToken(s: Process, xs: seq<Step>)
    requires TokenHeld(s) && Balanced(s)
    ensures TokenHeld(Resume(s, xs)) && Balanced(Resume(s, xs)) && Resume(s, xs).missed == s.missed
  {
    if xs != [] {
      var front := xs[..|xs| - 1];
      ResumeKeepsToken(s, front);
      StepKeepsToken(Resume(s, front), xs[|xs| - 1]);
      StepKeepsBalance(Resume(s, front), xs[|xs| - 1]);
    }
  }

  /** In every interleaving the flag is set exactly when one party is between
      its winning swap and its rollback or swap-out, and then it is the only
      one; every live system's swap reads true; and every successful
      `VmbStartup` is matched by a `VmbShutdown`, a live system or a drop that
      has yet to call it. */
  lemma FlagIsAUniqueToken(xs: seq<Step>)
    ensures var s := Run(xs);
      && (s.flag <==> exists p :: Holders(s) == {p})
      && (!s.flag <==> Holders(s) == {})
      && (forall p :: Within(s, p, Live) ==> s.flag) && s.missed == 0
      && s.startups == s.shutdowns + |In(s, Live)| + |In(s, ShuttingDown)|
  {
    assert Holders(AT_REST) == {} && In(AT_REST, Live) == {} && In(AT_REST, ShuttingDown) == {};
    ResumeKeepsToken(AT_REST, xs);
    var s := Run(xs);
    if s.flag {
      var p :| Holders(s) == {p};
      assert p in Holders(s);
    }
    forall p | Within(s, p, Live)
      ensures s.flag
    {
      assert p in Holders(s);
    }
  }

  /** A startup is told `AlreadyStarted` exactly while another party holds the
      token. */
  lemma AlreadyStartedIff(xs: seq<Step>, p: Party)
    requires p !in Run(xs).parties
    ensures !Wins(Run(xs), Swap(p)) <==> exists q :: q in Holders(Run(xs))
  {
    FlagIsAUniqueToken(xs);
    var s := Run(xs);
    if s.flag {
      var q :| Holders(s) == {q};
      assert q in Holders(s);
    }
  }

  // --- The flag and the SDK ---------------------------------------------

  /** No swap wins while another party is between its swap-out and its
      `VmbShutdown`. */
  predicate NoOverlap(xs: seq<Step>) {
    xs == [] || (var s := Run(xs[..|xs| - 1]);
                 NoOverlap(xs[..|xs| - 1]) && (Wins(s, xs[|xs| - 1]) ==> In(s, ShuttingDown) == {}))
  }

  /** At most one party is anywhere, and the SDK runs while its system lives
      or is being shut down. */
  ghost predicate InStep(s: Process) {
    && (forall p, q :: p in s.parties && q in s.parties ==> p == q)
    && (s.running <==> exists p :: Within(s, p, Live) || Within(s, p, ShuttingDown))
  }

  lemma StepStaysInStep(s: Process, x: Step)
    requires TokenHeld(s) && InStep(s) && (Wins(s, x) ==> In(s, ShuttingDown) == {})
    ensures InStep(Take(s, x))
  {
    var s' := Take(s, x);
    if Wins(s, x) {
      assert forall p <- s.parties :: p in Holders(s) + In(s, ShuttingDown);
    } else if s' != s {
      assert forall p :: p in s.parties ==> p == x.p;
      assert x.p in s'.parties && s'.parties[x.p].Live? ==> Within(s', x.p, Live);
      assert x.p in s'.parties && s'.parties[x.p].ShuttingDown? ==> Within(s', x.p, ShuttingDown);
      assert s.running <==> Within(s, x.p, Live) || Within(s, x.p, ShuttingDown);
      assert Within(s, x.p, Live) ==> x.p in Holders(s);
    }
  }

  lemma {:induction false} RunsStayInStep(xs: seq<Step>)
    requires NoOverlap(xs)
    ensures InStep(Run(xs)) && TokenHeld(Run(xs))
  {
    assert Holders(AT_REST) == {};
    if xs != [] {
      var front := xs[..|xs| - 1];
      RunsStayInStep(front);
      StepStaysInStep(Run(front), xs[|xs| - 1]);
      StepKeepsToken(Run(front), xs[|xs| - 1]);
    }
  }

  predicate NobodyMidCall(s: Process) {
    forall p <- s.parties :: s.parties[p].Live?
  }

  // --- Exactly when they agree ------------------------------------------

  predicate Starts(s: Process, x: Step) {
    x.CallStartup? && x.ok && Within(s, x.p, Claimed)
  }

  predicate ShutdownPending(s: Process) {
    exists p <- s.parties :: Within(s, p, ShuttingDown)
  }

  predicate SomebodyLive(s: Process) {
    exists p <- s.parties :: Within(s, p, Live)
  }

  /** The latest `VmbStartup` that succeeded was called while a `VmbShutdown`
      was pending. */
  predicate Late(xs: seq<Step>) {
    xs != [] &&
    var s, x := Run(xs[..|xs| - 1]), xs[|xs| - 1];
    if Starts(s, x) then ShutdownPending(s) else Late(xs[..|xs| - 1])
  }

  /** What a late or punctual start leaves: a punctual system runs with no
      shutdown pending; a late one has its shutdown still coming or done. */
  predicate Timed(s: Process, late: bool) {
    && (s.running ==> SomebodyLive(s) || ShutdownPending(s))
    && (SomebodyLive(s) ==>
          if late then ShutdownPending(s) || !s.running else s.running && !ShutdownPending(s))
  }

  /** A step of party `p` leaves every other party where it is. */
  lemma OthersStay(s: Process, x: Step)
    ensures forall q, stage :: q != x.p ==> (Within(Take(s, x), q, stage) <==> Within(s, q, stage))
  {
  }

  lemma StartKeepsTime(s: Process, x: Step)
    requires TokenHeld(s) && Starts(s, x)
    ensures Timed(Take(s, x), ShutdownPending(s))
  {
    var s' := Take(s, x);
    OthersStay(s, x);
    assert Within(s', x.p, Live);
    if ShutdownPending(s) {
      var q :| q in s.parties && Within(s, q, ShuttingDown);
      assert Within(s', q, ShuttingDown);
    }
  }

  lemma SwapOutKeepsTime(s: Process, p: Party, late: bool)
    requires TokenHeld(s) && Timed(s, late) && Within(s, p, Live)
    ensures Timed(Take(s, SwapOut(p)), late)
  {
    LiveHoldsAlone(s, p);
    assert Within(Take(s, SwapOut(p)), p, ShuttingDown);
    OthersStay(s, SwapOut(p));
  }

  lemma ShutdownKeepsTime(s: Process, p: Party, late: bool)
    requires TokenHeld(s) && Timed(s, late) && Within(s, p, ShuttingDown)
    ensures Timed(Take(s, CallShutdown(p)), late)
  {
    OthersStay(s, CallShutdown(p));
    if SomebodyLive(Take(s, CallShutdown(p))) {
      assert ShutdownPending(s);
    }
  }

  /** Any other step moves nobody into or out of a system's life. */
  lemma OtherStepsKeepTime(s: Process, x: Step, late: bool)
    requires TokenHeld(s) && Timed(s, late) && !Starts(s, x) && !x.SwapOut? && !x.CallShutdown?
    ensures Timed(Take(s, x), late)
  {
    var s' := Take(s, x);
    OthersStay(s, x);
    assert forall q :: Within(s', q, Live) <==> Within(s, q, Live);
    assert forall q :: Within(s', q, ShuttingDown) <==> Within(s, q, ShuttingDown);
  }

  lemma StepKeepsTime(s: Process, x: Step, late: bool)
    requires TokenHeld(s) && Timed(s, late)
    ensures Timed(Take(s, x), if Starts(s, x) then ShutdownPending(s) else late)
  {
    if Starts(s, x) {
      StartKeepsTime(s, x);
    } else if x.SwapOut? {
      if Within(s, x.p, Live) {
        SwapOutKeepsTime(s, x.p, late);
      }
    } else if x.CallShutdown? {
      if Within(s, x.p, ShuttingDown) {
        ShutdownKeepsTime(s, x.p, late);
      }
    } else {
      OtherStepsKeepTime(s, x, late);
    }
  }

  lemma {:induction false} RunsAreTimed(xs: seq<Step>)
    ensures TokenHeld(Run(xs)) && Timed(Run(xs), Late(xs))
  {
    assert Holders(AT_REST) == {};
    if xs != [] {
      var front := xs[..|xs| - 1];
      RunsAreTimed(front);
      StepKeepsToken(Run(front), xs[|xs| - 1]);
      StepKeepsTime(Run(front), xs[|xs| - 1], Late(front));
    }
  }

  /** In every interleaving, whenever no thread is in a call, the flag says
      whether the SDK is running exactly unless it is set by a system whose
      `VmbStartup` was called while a `VmbShutdown` was pending. */
  lemma FlagAgreesIff(xs: seq<Step>)
    requires NobodyMidCall(Run(xs))
    ensures Run(xs).flag == Run(xs).running <==> !(Run(xs).flag && Late(xs))
  {
    RunsAreTimed(xs);
    var s := Run(xs);
    assert !ShutdownPending(s);
    if s.flag {
      var p :| p in s.parties && Holders(s) == {p};
      assert Within(s, p, Live);
    } else if SomebodyLive(s) {
      var p :| p in s.parties && Within(s, p, Live);
      LiveHoldsAlone(s, p);
    }
  }

  lemma {:induction false} NoOverlapIsPunctual(xs: seq<Step>)
    requires NoOverlap(xs)
    ensures !Late(xs)
  {
    if xs != [] {
      NoOverlapIsPunctual(xs[..|xs| - 1]);
      RunsStayInStep(xs[..|xs| - 1]);
    }
  }

  /** In particular they agree if no swap ever wins against a pending
      `VmbShutdown`. */
  lemma FlagAgreesWithSdk(xs: seq<Step>)
    requires NoOverlap(xs) && NobodyMidCall(Run(xs))
    ensures Run(xs).flag == Run(xs).running
  {
    NoOverlapIsPunctual(xs);
    FlagAgreesIff(xs);
  }

  /** A failed startup leaves the protocol retryable: wherever the other
      threads are, once it has rolled back the next startup wins; and without
      overlap it leaves nothing behind at all. */
  lemma FailedStartupIsRetryable(xs: seq<Step>, p: Party, q: Party)
    requires Within(Run(xs), p, RollingBack) && (q == p || q !in Run(xs).parties)
    ensures Wins(Take(Run(xs), RollBack(p)), Swap(q))
    ensures NoOverlap(xs) ==> AtRest(Take(Run(xs), RollBack(p)))
  {
    if NoOverlap(xs) {
      RunsStayInStep(xs);
      var s := Run(xs);
      assert forall r <- s.parties :: r == p;
      assert !Within(s, p, Live) && !Within(s, p, ShuttingDown);
      assert Take(s, RollBack(p)).parties == map[];
    }
  }

  /** Nobody is anywhere, the flag is clear and the SDK is not running. */
  predicate AtRest(s: Process) {
    s.parties == map[] && !s.flag && !s.running
  }

  lemma ResumeOneMore(s: Process, xs: seq<Step>, x: Step)
    ensures Resume(s, xs + [x]) == Take(Resume(s, xs), x)
  {
    var ys := xs + [x];
    assert ys[..|ys| - 1] == xs && ys[|ys| - 1] == x;
  }

  /** The hypothesis cannot be dropped anywhere: from every state in which a
      swap could win against a pending `VmbShutdown`, letting it win leads to a
      state with nobody in a call, a live system, the flag set and the SDK
      stopped. */
  lemma OverlapBreaksAgreement(xs: seq<Step>, p: Party, q: Party)
    requires NoOverlap(xs) && Within(Run(xs), p, ShuttingDown) && q !in Run(xs).parties
    ensures Wins(Run(xs), Swap(q))
    ensures var s := Run(xs + [Swap(q)] + [CallStartup(q, true)] + [CallShutdown(p)]);
      NobodyMidCall(s) && Within(s, q, Live) && s.flag && !s.running
  {
    RunsStayInStep(xs);
    var s := Run(xs);
    assert p !in Holders(s);
    assert Holders(s) == {} by {
      assert forall r <- Holders(s) :: r == p;
    }
    ResumeOneMore(AT_REST, xs, Swap(q));
    ResumeOneMore(AT_REST, xs + [Swap(q)], CallStartup(q, true));
    ResumeOneMore(AT_REST, xs + [Swap(q)] + [CallStartup(q, true)], CallShutdown(p));
  }

  /** Such a state is reachable: start one system and swap it out. */
  lemma OverlapIsReachable() returns (xs: seq<Step>)
    ensures NoOverlap(xs) && Within(Run(xs), 0, ShuttingDown)
  {
    var a, b, c := [Swap(0)], [Swap(0)] + [CallStartup(0, true)], [Swap(0)] + [CallStartup(0, true)] + [SwapOut(0)];
    ResumeOneMore(AT_REST, [], Swap(0));
    ResumeOneMore(AT_REST, a, CallStartup(0, true));
    ResumeOneMore(AT_REST, b, SwapOut(0));
    assert [] + [Swap(0)] == a;
    assert a[..0] == [] && b[..1] == a && c[..2] == b;
    assert In(AT_REST, ShuttingDown) == {};
    xs := c;
  }

  // --- The methods ------------------------------------------------------

  /** The flag and the SDK as one process holds them. */
  class Globals {
    var started: bool
    ghost var view: Process

    ghost predicate Valid()
      reads this
    {
      view.flag == started
    }

    constructor ()
      ensures Valid() && view == AT_REST
    {
      started := false;
      view := AT_REST;
    }

    /** `startup`, run without interruption by party `p`; `rc` is what
        `VmbStartup` answers. */
    method Startup(ghost p: Party, rc: Option<VmbError>) returns (r: Outcome)
      requires Valid() && p !in view.parties
      modifies this
      ensures Valid()
      ensures view == Take(Take(Take(old(view), Swap(p)), CallStartup(p, rc.None?)), RollBack(p))
      ensures r == (if old(started) then Err(AlreadyStarted) else if rc.Some? then Err(rc.value) else Ok)
      ensures r.Ok? <==> Within(view, p, Live)
      ensures r.Ok? ==> started && view.running && view.startups == old(view.startups) + 1
      ensures r.Err? ==> view == old(view)
    {
      if started {
        return Err(AlreadyStarted);
      }
      started := true;
      view := Take(view, Swap(p));
      view := Take(view, CallStartup(p, rc.None?));
      if rc.Some? {
        started := false;
        view := Take(view, RollBack(p));
        assert view.parties == old(view).parties;
        return Err(rc.value);
      }
      return Ok;
    }

    /** `shutdown`, run without interruption by party `p`; without a live
        system it calls nothing. */
    method Shutdown(ghost p: Party)
      requires Valid() && (Within(view, p, Live) || (!started && p !in view.parties))
      modifies this
      ensures Valid() && !started && p !in view.parties
      ensures view == Take(Take(old(view), SwapOut(p)), CallShutdown(p))
      ensures view.shutdowns == old(view.shutdowns) + if old(started) then 1 else 0
      ensures view.running == (old(view.running) && !old(started))
    {
      var was := started;
      started := false;
      view := Take(view, SwapOut(p));
      if was {
        view := Take(view, CallShutdown(p));
      }
    }
  }

  datatype SystemResult = Up(system: VmbSystem) | Down(error: VmbError)

  /** `VmbSystem`: construction starts the runtime, drop shuts it down. */
  class VmbSystem {
    const globals: Globals
    ghost const party: Party

    ghost predicate Valid()
      reads globals
    {
      globals.Valid() && TokenHeld(globals.view) && Within(globals.view, party, Live)
    }

    constructor (globals: Globals, ghost party: Party)
      requires globals.Valid() && TokenHeld(globals.view) && Within(globals.view, party, Live)
      ensures this.globals == globals && this.party == party && Valid()
    {
      this.globals := globals;
      this.party := party;
    }

    static method Startup(globals: Globals, ghost party: Party, rc: Option<VmbError>) returns (result: SystemResult)
      requires globals.Valid() && TokenHeld(globals.view) && party !in globals.view.parties
      modifies globals
      ensures globals.Valid() && TokenHeld(globals.view)
      ensures match result
        case Up(system) =>
          && fresh(system) && system.Valid() && system.globals == globals && system.party == party
          && !old(globals.started) && rc.None? && globals.view.running
        case Down(e) =>
          && (if old(globals.started) then e == AlreadyStarted else rc == Some(e))
          && globals.view == old(globals.view)
    {
      var r := globals.Startup(party, rc);
      StepKeepsToken(old(globals.view), Swap(party));
      StepKeepsToken(Take(old(globals.view), Swap(party)), CallStartup(party, rc.None?));
      if r.Err? {
        return Down(r.error);
      }
      assert globals.view == Take(Take(old(globals.view), Swap(party)), CallStartup(party, rc.None?));
      var system := new VmbSystem(globals, party);
      return Up(system);
    }

    /** `Drop`: the swap reads true, so the SDK is always shut down. */
    method Drop()
      requires Valid()
      modifies globals
      ensures globals.Valid() && TokenHeld(globals.view)
      ensures !globals.started && !globals.view.running
      ensures globals.view.shutdowns == old(globals.view.shutdowns) + 1
      ensures globals.view.missed == old(globals.view.missed)
      ensures globals.view.parties == old(globals.view.parties) - {party}
    {
      assert party in Holders(globals.view);
      StepKeepsToken(globals.view, SwapOut(party));
      StepKeepsToken(Take(globals.view, SwapOut(party)), CallShutdown(party));
      globals.Shutdown(party);
    }
  }
}
