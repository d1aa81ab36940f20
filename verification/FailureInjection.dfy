/** What `fail_nth` promises, over every mix of arming and calling. */
module FailureInjection {
  import opened Port
  import opened FakeModel

  datatype Act = Arm(m: Method, k: nat, e: VmbError) | Invoke(m: Method)

  function Perform(g: Config, x: Act): Config {
    match x
    case Arm(m, k, e) => FailNth(g, m, k, e)
    case Invoke(m) => MaybeFail(g, m).0
  }

  function After(h: seq<Act>): Config {
    if h == [] then DEFAULT_CONFIG else Perform(After(h[..|h| - 1]), h[|h| - 1])
  }

  /** The calls to `m` in a history. */
  function Count(h: seq<Act>, m: Method): nat {
    if h == [] then 0
    else Count(h[..|h| - 1], m) + if h[|h| - 1] == Invoke(m) then 1 else 0
  }

  /** The error the latest `fail_nth(m, k, _)` of a history asked for. */
  function LastArmed(h: seq<Act>, m: Method, k: nat): Option<VmbError> {
    if h == [] then None
    else if h[|h| - 1].Arm? && h[|h| - 1].m == m && h[|h| - 1].k == k then Some(h[|h| - 1].e)
    else LastArmed(h[..|h| - 1], m, k)
  }

  function Pending(g: Config, m: Method, k: nat): Option<VmbError> {
    if (m, k) in g.failures then Some(g.failures[(m, k)]) else None
  }

  /** The configuration remembers exactly the call counts, and for every call
      still to come the latest error armed for it. */
  lemma {:induction false} ConfigTracksHistory(h: seq<Act>, m: Method, k: nat)
    ensures CounterOf(After(h), m) == Count(h, m)
    ensures k >= Count(h, m) ==> Pending(After(h), m, k) == LastArmed(h, m, k)
  {
    if h != [] {
      var x := h[|h| - 1];
      ConfigTracksHistory(h[..|h| - 1], m, k);
      ConfigTracksHistory(h[..|h| - 1], x.m, k);
      ActTracks(After(h[..|h| - 1]), x, m, k);
    }
  }

  lemma ActTracks(g: Config, x: Act, m: Method, k: nat)
    ensures CounterOf(Perform(g, x), m) == CounterOf(g, m) + if x == Invoke(m) then 1 else 0
    ensures Pending(Perform(g, x), m, k)
         == if x.Arm? && x.m == m && x.k == k then Some(x.e)
            else if x == Invoke(m) && k == CounterOf(g, m) then None
            else Pending(g, m, k)
  {
  }

  /** Call number `Count(h, m)` to `m` fails exactly when some earlier
      `fail_nth` named that number, and with the error of the latest one. */
  lemma InjectedFailureIff(h: seq<Act>, m: Method)
    ensures MaybeFail(After(h), m).1 == LastArmed(h, m, Count(h, m))
  {
    ConfigTracksHistory(h, m, Count(h, m));
  }

  /** Nothing in `h` arms (m, k). */
  predicate NeverArms(h: seq<Act>, m: Method, k: nat) {
    forall i :: 0 <= i < |h| && h[i].Arm? ==> (h[i].m, h[i].k) != (m, k)
  }

  lemma {:induction false} CountsAdd(h: seq<Act>, rest: seq<Act>, m: Method, k: nat)
    requires NeverArms(rest, m, k)
    ensures Count(h + rest, m) == Count(h, m) + Count(rest, m)
    ensures LastArmed(h + rest, m, k) == LastArmed(h, m, k)
  {
    var w := h + rest;
    if rest == [] {
      assert w == h;
    } else {
      assert w[..|w| - 1] == h + rest[..|rest| - 1];
      CountsAdd(h, rest[..|rest| - 1], m, k);
    }
  }

  /** Arming (m, k) changes no call count, and no other entry. */
  lemma {:induction false} ArmingIsLocal(h: seq<Act>, x: Act, rest: seq<Act>, m: Method, k: nat)
    requires x.Arm?
    ensures Count(h + [x] + rest, m) == Count(h + rest, m)
    ensures (x.m, x.k) != (m, k) ==> LastArmed(h + [x] + rest, m, k) == LastArmed(h + rest, m, k)
  {
    var w := h + [x] + rest;
    if rest == [] {
      assert w[..|w| - 1] == h && h + rest == h;
    } else {
      var front := rest[..|rest| - 1];
      assert w[..|w| - 1] == h + [x] + front;
      assert (h + rest)[..|h + rest| - 1] == h + front;
      ArmingIsLocal(h, x, front, m, k);
    }
  }

  /** An entry armed below the current counter never fires: whatever follows,
      every call to every method has the outcome it would have without it. */
  lemma StaleEntryNeverFires(h: seq<Act>, x: Act, rest: seq<Act>, m: Method)
    requires x.Arm? && x.k < Count(h, x.m)
    ensures MaybeFail(After(h + [x] + rest), m).1 == MaybeFail(After(h + rest), m).1
  {
    var k := Count(h + rest, m);
    CountGrows(h, rest, m);
    ArmingIsLocal(h, x, rest, m, k);
    InjectedFailureIff(h + [x] + rest, m);
    InjectedFailureIff(h + rest, m);
  }

  lemma ArmedOneMore(h: seq<Act>, m: Method, skip: nat, e: VmbError, k: nat)
    ensures Count(h + [Arm(m, skip, e)], m) == Count(h, m)
    ensures LastArmed(h + [Arm(m, skip, e)], m, k) == if k == skip then Some(e) else LastArmed(h, m, k)
  {
    var armed := h + [Arm(m, skip, e)];
    assert armed[..|armed| - 1] == h;
  }

  lemma OutcomeAfterArming(armed: seq<Act>, rest: seq<Act>, m: Method, c: nat)
    requires Count(armed, m) + Count(rest, m) == c && NeverArms(rest, m, c)
    ensures MaybeFail(After(armed + rest), m).1 == LastArmed(armed, m, c)
  {
    CountsAdd(armed, rest, m, c);
    InjectedFailureIff(armed + rest, m);
  }

  /** `fail_nth` is documented to fail the `skip`-th future call. Whatever was
      armed before, and whatever is called or armed in between short of that
      very call, it gets the error exactly when the method had not been called yet -- the
      index is compared with a count that starts at construction -- or an
      earlier arming asked for that very error. */
  lemma FailNthHitsFutureCallIff(h: seq<Act>, m: Method, skip: nat, e: VmbError, rest: seq<Act>)
    requires Count(rest, m) == skip && NeverArms(rest, m, Count(h, m) + skip)
    ensures MaybeFail(After(h + [Arm(m, skip, e)] + rest), m).1 == Some(e)
       <==> Count(h, m) == 0 || LastArmed(h, m, Count(h, m) + skip) == Some(e)
  {
    var c := Count(h, m) + skip;
    ArmedOneMore(h, m, skip, e, c);
    OutcomeAfterArming(h + [Arm(m, skip, e)], rest, m, c);
    var outcome := MaybeFail(After(h + [Arm(m, skip, e)] + rest), m).1;
    if Count(h, m) == 0 {
      assert outcome == Some(e);
    } else {
      assert outcome == LastArmed(h, m, c);
    }
  }

  /** With nothing armed for the method before: exactly when it had not been
      called. */
  lemma FailNthOnFreshMethodIff(h: seq<Act>, m: Method, skip: nat, e: VmbError, rest: seq<Act>)
    requires forall k :: LastArmed(h, m, k) == None
    requires Count(rest, m) == skip && NeverArms(rest, m, Count(h, m) + skip)
    ensures MaybeFail(After(h + [Arm(m, skip, e)] + rest), m).1 == Some(e) <==> Count(h, m) == 0
  {
    FailNthHitsFutureCallIff(h, m, skip, e, rest);
  }

  /** The entry a call to `m` consults after the history `h`. */
  function EntryFor(h: seq<Act>, m: Method): (Method, nat) {
    (m, CounterOf(After(h), m))
  }

  /** Two calls of one history consult different entries. */
  lemma CallsConsultDifferentEntries(h: seq<Act>, i: nat, j: nat)
    requires i < j < |h| && h[i].Invoke? && h[j].Invoke?
    ensures EntryFor(h[..i], h[i].m) != EntryFor(h[..j], h[j].m)
  {
    var m := h[i].m;
    assert h[..i + 1][..|h[..i + 1]| - 1] == h[..i];
    assert h[..j] == h[..i + 1] + h[i + 1..j];
    CountGrows(h[..i + 1], h[i + 1..j], m);
    ConfigTracksHistory(h[..i], m, 0);
    ConfigTracksHistory(h[..j], m, 0);
  }

  lemma {:induction false} AbsentStaysAbsent(h: seq<Act>, rest: seq<Act>, m: Method, k: nat)
    requires (m, k) !in After(h).failures && NeverArms(rest, m, k)
    ensures (m, k) !in After(h + rest).failures
  {
    var w := h + rest;
    if rest == [] {
      assert w == h;
    } else {
      assert w[..|w| - 1] == h + rest[..|rest| - 1] && w[|w| - 1] == rest[|rest| - 1];
      AbsentStaysAbsent(h, rest[..|rest| - 1], m, k);
      StaysAbsent(After(h + rest[..|rest| - 1]), rest[|rest| - 1], m, k);
    }
  }

  lemma StaysAbsent(g: Config, x: Act, m: Method, k: nat)
    requires (m, k) !in g.failures && (x.Arm? ==> (x.m, x.k) != (m, k))
    ensures (m, k) !in Perform(g, x).failures
  {
  }

  /** Each entry fires at most once: a call takes the entry it consults out of
      the table, where it is not pending again unless it is armed again; and
      no later call consults it even then. */
  lemma FiresAtMostOnce(h: seq<Act>, m: Method, rest: seq<Act>)
    ensures NeverArms(rest, m, EntryFor(h, m).1)
        ==> EntryFor(h, m) !in After(h + [Invoke(m)] + rest).failures
    ensures EntryFor(h + [Invoke(m)] + rest, m) != EntryFor(h, m)
  {
    var called := h + [Invoke(m)];
    assert called[..|called| - 1] == h;
    if NeverArms(rest, m, EntryFor(h, m).1) {
      AbsentStaysAbsent(called, rest, m, EntryFor(h, m).1);
    }
    CountGrows(called, rest, m);
    ConfigTracksHistory(h, m, 0);
    ConfigTracksHistory(called + rest, m, 0);
  }

  lemma {:induction false} CountGrows(h: seq<Act>, rest: seq<Act>, m: Method)
    ensures Count(h + rest, m) >= Count(h, m)
  {
    var w := h + rest;
    if rest == [] {
      assert w == h;
    } else {
      assert w[..|w| - 1] == h + rest[..|rest| - 1];
      CountGrows(h, rest[..|rest| - 1], m);
    }
  }

  // --- Which call counts under which method -----------------------------

  lemma OpenCameraIsCounted(f: Fake, name: string, f': Fake, r: Reply)
    requires Apply(f, OpenCamera(name)) == (f', r)
    ensures Consulted(f.config, OpenCameraMethod, f'.config, FailureOf(r))
  {
    MaybeFailConsults(f.config, OpenCameraMethod);
  }

  lemma RunFeatureCommandIsCounted(f: Fake, h: Id, command: Command, f': Fake, r: Reply)
    requires Apply(f, RunFeatureCommand(h, command)) == (f', r)
    ensures Consulted(f.config, RunFeatureCommandMethod, f'.config, FailureOf(r))
  {
    MaybeFailConsults(f.config, RunFeatureCommandMethod);
  }

  lemma PayloadSizeIsCounted(f: Fake, h: Id, f': Fake, r: Reply)
    requires Apply(f, PayloadSize(h)) == (f', r)
    ensures Consulted(f.config, PayloadSizeMethod, f'.config, FailureOf(r))
    ensures !r.Failed? ==> r == Size(f.config.payloadSize)
  {
    MaybeFailConsults(f.config, PayloadSizeMethod);
  }

  lemma AnnounceFrameIsCounted(f: Fake, h: Id, size: nat, f': Fake, r: Reply)
    requires Apply(f, AnnounceFrame(h, size)) == (f', r)
    ensures Consulted(f.config, AnnounceFrameMethod, f'.config, FailureOf(r))
  {
    MaybeFailConsults(f.config, AnnounceFrameMethod);
  }

  lemma CaptureStartIsCounted(f: Fake, h: Id, f': Fake, r: Reply)
    requires Apply(f, CaptureStart(h)) == (f', r)
    ensures Consulted(f.config, CaptureStartMethod, f'.config, FailureOf(r))
  {
    MaybeFailConsults(f.config, CaptureStartMethod);
  }

  lemma QueueFrameIsCounted(f: Fake, h: Id, slot: Id, cb: Id, f': Fake, r: Reply)
    requires Apply(f, QueueFrame(h, slot, cb)) == (f', r)
    ensures Consulted(f.config, QueueFrameMethod, f'.config, FailureOf(r))
  {
    MaybeFailConsults(f.config, QueueFrameMethod);
  }

  lemma RegisterDiscoveryIsCounted(f: Fake, cb: Id, f': Fake, r: Reply)
    requires Apply(f, RegisterDiscovery(cb)) == (f', r)
    ensures Consulted(f.config, RegisterDiscoveryMethod, f'.config, FailureOf(r))
  {
    MaybeFailConsults(f.config, RegisterDiscoveryMethod);
  }

  /** The teardown calls and the installs never fail and count nowhere. */
  lemma OtherCallsAreNotCounted(f: Fake, c: Call, f': Fake, r: Reply)
    requires c.CloseCamera? || c.CaptureEnd? || c.CaptureQueueFlush? || c.FrameRevokeAll? || c.UnregisterDiscovery?
          || c.InstallFrameCallback? || c.UninstallFrameCallback?
          || c.InstallDiscoveryCallback? || c.UninstallDiscoveryCallback?
    requires Apply(f, c) == (f', r)
    ensures f'.config == f.config && !r.Failed?
  {
  }

  lemma MaybeFailConsults(g: Config, m: Method)
    ensures Consulted(g, m, MaybeFail(g, m).0, MaybeFail(g, m).1)
  {
    var k := CounterOf(g, m);
    if (m, k) !in g.failures {
      assert g.failures - {(m, k)} == g.failures;
    }
  }

  // --- Port calls and arming on one fake --------------------------------

  /** What a test does with a fake: rig a failure or make a port call. */
  datatype Op = Rig(m: Method, k: nat, e: VmbError) | Make(c: Call)

  function FakeAfter(ops: seq<Op>): Fake {
    if ops == [] then Fake(NO_TABLES, DEFAULT_CONFIG, [])
    else
      var f := FakeAfter(ops[..|ops| - 1]);
      match ops[|ops| - 1]
      case Rig(m, k, e) => f.(config := FailNth(f.config, m, k, e))
      case Make(c) => Apply(f, c).0
  }

  /** The arming and the counted calls among them. */
  function Acts(ops: seq<Op>): seq<Act> {
    if ops == [] then []
    else
      Acts(ops[..|ops| - 1])
      + match ops[|ops| - 1]
        case Rig(m, k, e) => [Arm(m, k, e)]
        case Make(c) => if MethodOf(c).Some? then [Invoke(MethodOf(c).value)] else []
  }

  lemma {:induction false} FakeTracksActs(ops: seq<Op>)
    ensures FakeAfter(ops).config == After(Acts(ops))
  {
    if ops != [] {
      var front, x := ops[..|ops| - 1], ops[|ops| - 1];
      FakeTracksActs(front);
      match x {
        case Rig(m, k, e) => AfterOneMore(Acts(front), Arm(m, k, e));
        case Make(c) => if MethodOf(c).Some? { AfterOneMore(Acts(front), Invoke(MethodOf(c).value)); }
      }
      if x.Make? && MethodOf(x.c).None? {
        assert Acts(ops) == Acts(front) + [] == Acts(front);
      }
    }
  }

  lemma AfterOneMore(h: seq<Act>, x: Act)
    ensures After(h + [x]) == Perform(After(h), x)
  {
    var w := h + [x];
    assert w[..|w| - 1] == h && w[|w| - 1] == x;
  }

  /** Whatever was armed and called before on a fake, in any mix, a call that
      can fail does so exactly if its number among the calls counted under its
      method was armed for that method, and with the error armed last. */
  lemma PortCallFailsIff(ops: seq<Op>, c: Call, m: Method)
    requires MethodOf(c) == Some(m)
    ensures FailureOf(Apply(FakeAfter(ops), c).1) == LastArmed(Acts(ops), m, Count(Acts(ops), m))
  {
    FakeTracksActs(ops);
    InjectedFailureIff(Acts(ops), m);
    FailsIfInjected(FakeAfter(ops), c, m);
  }

  lemma FailsIfInjected(f: Fake, c: Call, m: Method)
    requires MethodOf(c) == Some(m)
    ensures FailureOf(Apply(f, c).1) == MaybeFail(f.config, m).1
  {
  }
}
