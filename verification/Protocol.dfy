/** The call-ordering contract of the port, as an observer that sees the
    calls on one camera handle and their replies. */
module Protocol {
  import opened Port
  import opened CameraProgram
  import opened FakeModel
  import opened Domain
  import opened FakeWorld
  import opened TableInvariant

  datatype Life = Unborn | Alive | Gone

  /** What the observer has seen of the current round: the payload size, the
      installed callback, the announced slots, how many of them are queued,
      whether the capture and the acquisition are on, whether the round is
      `over` (a call failed or AcquisitionStop was sent) and how many of the
      teardown calls were made. */
  datatype Monitor = Monitor(
    life: Life,
    size: Option<nat>,
    cb: Option<Id>,
    announced: seq<Id>,
    queued: nat,
    capturing: bool,
    running: bool,
    over: bool,
    torn: nat)

  const UNBORN := Monitor(Unborn, None, None, [], 0, false, false, false, 0)
  const FRESH := UNBORN.(life := Alive)

  /** A round is being built up: nothing failed and nothing was torn down. */
  predicate Building(m: Monitor) {
    m.cb.Some? && !m.over && !m.running && m.torn == 0
  }

  /** The next state, or None when the call is out of order. */
  function Observe(m: Monitor, h: Id, call: Call, r: Reply): Option<Monitor> {
    match call
    case OpenCamera(_) => if m.life.Unborn? then Some(FRESH) else None
    case PayloadSize(x) =>
      if x == h && m == FRESH then Some(if r.Size? then m.(size := Some(r.bytes)) else m) else None
    case InstallFrameCallback(_) =>
      if m.life.Alive? && m.cb.None? && m.size.Some? && r.Got? then Some(m.(cb := Some(r.id))) else None
    case AnnounceFrame(x, size) =>
      if x == h && Building(m) && !m.capturing && m.size == Some(size) then
        if !r.Got? then Some(m.(over := true))
        else if r.id !in m.announced then Some(m.(announced := m.announced + [r.id]))
        else None
      else None
    case CaptureStart(x) =>
      if x == h && Building(m) && !m.capturing
      then Some(if r.Done? then m.(capturing := true) else m.(over := true)) else None
    case QueueFrame(x, slot, cb) =>
      if x == h && Building(m) && m.capturing && m.cb == Some(cb)
         && m.queued < |m.announced| && slot == m.announced[m.queued]
      then Some(if r.Done? then m.(queued := m.queued + 1) else m.(over := true)) else None
    case RunFeatureCommand(x, AcquisitionStart) =>
      if x == h && Building(m) && m.capturing && m.queued == |m.announced|
      then Some(if r.Done? then m.(running := true) else m.(over := true)) else None
    case RunFeatureCommand(x, AcquisitionStop) =>
      if x == h && m.running then Some(m.(running := false, over := true)) else None
    case CaptureEnd(x) =>
      if x == h && m.cb.Some? && m.over && m.torn == 0
      then Some(m.(capturing := false, torn := 1)) else None
    case CaptureQueueFlush(x) =>
      if x == h && m.torn == 1 then Some(m.(queued := 0, torn := 2)) else None
    case FrameRevokeAll(x) =>
      if x == h && m.torn == 2 then Some(m.(announced := [], torn := 3)) else None
    case UninstallFrameCallback(cb) =>
      if m.torn == 3 && m.cb == Some(cb) then Some(FRESH) else None
    case CloseCamera(x) =>
      if x == h && m == FRESH then Some(m.(life := Gone)) else None
    case _ => None
  }

  /** The handle a call is made on. */
  function Named(c: Call): Option<Id> {
    match c
    case CloseCamera(h) => Some(h)
    case RunFeatureCommand(h, _) => Some(h)
    case PayloadSize(h) => Some(h)
    case AnnounceFrame(h, _) => Some(h)
    case CaptureStart(h) => Some(h)
    case QueueFrame(h, _, _) => Some(h)
    case CaptureEnd(h) => Some(h)
    case CaptureQueueFlush(h) => Some(h)
    case FrameRevokeAll(h) => Some(h)
    case _ => None
  }

  /** The calls the observer of `h` sees: every call on `h`, whoever makes it,
      the other calls of its camera, and the one that opened it. */
  predicate Concerns(x: Entry, h: Id) {
    Named(x.call) == Some(h) || x.who == Cam(h) || (x.who.Opener? && x.reply == Got(h))
  }

  function Watch(trace: seq<Entry>, h: Id): Option<Monitor> {
    if trace == [] then Some(UNBORN)
    else
      var before := Watch(trace[..|trace| - 1], h);
      var x := trace[|trace| - 1];
      if before.None? || !Concerns(x, h) then before
      else Observe(before.value, h, x.call, x.reply)
  }

  // --- The observer and the program agree -------------------------------

  predicate Agrees(m: Monitor, c: CameraState) {
    match c.pc
    case Ready =>
      (match c.session
       case None => m == FRESH
       case Some(s) => AgreesWithin(m, s, Halting(Stopping)))
    case Within(s, stage) => AgreesWithin(m, s, stage)
    case Installing(size) => m == FRESH.(size := Some(size))
    case Dropped => m.life.Gone?
    case _ => m == FRESH
  }

  predicate AgreesWithin(m: Monitor, s: Session, stage: Stage) {
    && m.life.Alive? && m.size.Some? && m.cb == Some(s.callbackId)
    && m.announced == (if stage.Uninstalling? then [] else s.slots)
    && match stage
       case Announcing(size) => Building(m) && !m.capturing && m.queued == 0 && m.size == Some(size)
       case Starting => Building(m) && !m.capturing && m.queued == 0
       case Queueing(k) => Building(m) && m.capturing && m.queued == k
       case Acquiring => Building(m) && m.capturing && m.queued == |s.slots|
       case Halting(_) => m.running && !m.over && m.torn == 0
       case Ending(_, _) => m.over && !m.running && m.torn == 0
       case Flushing(_) => m.torn == 1
       case Revoking(_) => m.torn == 2
       case Uninstalling(_) => m.torn == 3
  }

  lemma BuildupObserved(c: CameraState, m: Monitor, r: Reply)
    requires Busy(c) && Shaped(c) && Agrees(m, c) && c.pc.Within?
    requires c.pc.stage.Announcing? || c.pc.stage.Starting? || c.pc.stage.Queueing? || c.pc.stage.Acquiring?
    requires r.Got? ==> r.id !in SlotsOf(c)
    ensures Observe(m, c.handle, Next(c), r).Some?
    ensures Agrees(Observe(m, c.handle, Next(c), r).value, Advance(c, r))
  {
  }

  lemma TeardownObserved(c: CameraState, m: Monitor, r: Reply)
    requires Busy(c) && Shaped(c) && Agrees(m, c) && c.pc.Within?
    requires !c.pc.stage.Announcing? && !c.pc.stage.Starting? && !c.pc.stage.Queueing? && !c.pc.stage.Acquiring?
    ensures Observe(m, c.handle, Next(c), r).Some?
    ensures Agrees(Observe(m, c.handle, Next(c), r).value, Advance(c, r))
  {
  }

  lemma CallObserved(c: CameraState, m: Monitor, r: Reply)
    requires Busy(c) && Shaped(c) && Agrees(m, c)
    requires r.Got? ==> r.id !in SlotsOf(c)
    requires c.pc.Installing? ==> r.Got?
    ensures Observe(m, c.handle, Next(c), r).Some?
    ensures Agrees(Observe(m, c.handle, Next(c), r).value, Advance(c, r))
  {
    if c.pc.Within? {
      match c.pc.stage {
        case Announcing(_) => BuildupObserved(c, m, r);
        case Starting => BuildupObserved(c, m, r);
        case Queueing(_) => BuildupObserved(c, m, r);
        case Acquiring => BuildupObserved(c, m, r);
        case _ => TeardownObserved(c, m, r);
      }
    }
  }

  lemma EnteringObserved(c: CameraState, m: Monitor, buffers: nat, closure: Closure)
    requires c.pc.Ready? && Agrees(m, c)
    ensures Agrees(m, BeginStart(c, buffers, closure))
    ensures Agrees(m, BeginStop(c)) && Agrees(m, BeginDrop(c))
  {
  }

  /** The observer of `h` has no objection, agrees with the camera while it is
      open, and has seen nothing before the handle is issued. */
  predicate Conforms(w: World, h: Id) {
    && Watch(w.d.trace, h).Some?
    && (h in w.d.cams ==> Agrees(Watch(w.d.trace, h).value, w.d.cams[h]))
    && (h > w.t.draws ==> Watch(w.d.trace, h).value == UNBORN)
  }

  // --- Whole runs -------------------------------------------------------

  lemma WatchOneMore(trace: seq<Entry>, x: Entry, h: Id)
    ensures Watch(trace + [x], h)
         == if Watch(trace, h).None? || !Concerns(x, h) then Watch(trace, h)
            else Observe(Watch(trace, h).value, h, x.call, x.reply)
  {
    var longer := trace + [x];
    assert longer[..|longer| - 1] == trace;
  }

  lemma OwnReply(t: Tables, d: State, h: Id, a: Answer)
    requires TablesMatch(t, d) && CanCall(d, Cam(h))
    requires Serve(t, CallOf(d, Cam(h)), a).0.draws < U64
    ensures var r := Serve(t, CallOf(d, Cam(h)), a).1;
      && d.cams[h].handle == h
      && (r.Got? ==> r.id !in SlotsOf(d.cams[h]))
      && (d.cams[h].pc.Installing? ==> r.Got?)
      && h <= t.draws <= Serve(t, CallOf(d, Cam(h)), a).0.draws
  {
    HoldingsIssued(t, d, h);
    ReplyIdIsNext(t, CallOf(d, Cam(h)), a);
  }

  lemma OwnCallConforms(w: World, h: Id, a: Answer)
    requires CanCall(w.d, Cam(h)) && Conforms(w, h) && w.d.cams[h].handle == h
    requires var (t', r) := Serve(w.t, CallOf(w.d, Cam(h)), a);
      && (r.Got? ==> r.id !in SlotsOf(w.d.cams[h]))
      && (w.d.cams[h].pc.Installing? ==> r.Got?)
      && h <= w.t.draws <= t'.draws
    ensures Conforms(Take(w, Domain(Invoke(Cam(h), a))), h)
  {
    var c := w.d.cams[h];
    var (t', r) := Serve(w.t, Next(c), a);
    WatchOneMore(w.d.trace, Entry(Cam(h), Next(c), r), h);
    CallObserved(c, Watch(w.d.trace, h).value, r);
  }

  lemma CameraNamesItself(c: CameraState)
    requires Busy(c) && Shaped(c)
    ensures Named(Next(c)).Some? ==> Named(Next(c)) == Some(c.handle)
  {
  }

  lemma OthersNameNobody(d: State, who: Actor)
    requires CanCall(d, who) && !who.Cam?
    ensures Named(CallOf(d, who)).None?
  {
  }

  /** A call on `h` is made by the camera of `h` alone. */
  lemma OwnCallsOnly(d: State, who: Actor, h: Id)
    requires CanCall(d, who) && forall k <- d.cams :: d.cams[k].handle == k
    ensures Named(CallOf(d, who)) == Some(h) ==> who == Cam(h)
  {
    if who.Cam? {
      CameraNamesItself(d.cams[who.h]);
    } else {
      OthersNameNobody(d, who);
    }
  }

  lemma HandlesMatch(t: Tables, d: State)
    requires TablesMatch(t, d)
    ensures forall k <- d.cams :: d.cams[k].handle == k
  {
    forall k <- d.cams
      ensures d.cams[k].handle == k
    {
      HoldingsIssued(t, d, k);
    }
  }

  /** A call the observer does not see concerns nothing it knows. */
  lemma UnseenConforms(w: World, h: Id, who: Actor, a: Answer)
    requires CanCall(w.d, who) && Conforms(w, h)
    requires var (t', r) := Serve(w.t, CallOf(w.d, who), a);
      !Concerns(Entry(who, CallOf(w.d, who), r), h) && w.t.draws <= t'.draws
    ensures Conforms(Take(w, Domain(Invoke(who, a))), h)
  {
    var r := Serve(w.t, CallOf(w.d, who), a).1;
    WatchOneMore(w.d.trace, Entry(who, CallOf(w.d, who), r), h);
    OthersReceive(w.d, who, r, h);
  }

  lemma OthersReceive(d: State, who: Actor, r: Reply, h: Id)
    requires CanCall(d, who) && who != Cam(h) && !(who.Opener? && r == Got(h))
    ensures h in Receive(d, who, r).cams <==> h in d.cams
    ensures h in d.cams ==> Receive(d, who, r).cams[h] == d.cams[h]
    ensures Receive(d, who, r).trace == d.trace + [Entry(who, CallOf(d, who), r)]
  {
  }

  lemma BornConforms(w: World, h: Id, name: string, a: Answer)
    requires Conforms(w, h) && h == w.t.draws + 1
    requires Serve(w.t, OpenCamera(name), a).1 == Got(h) && Serve(w.t, OpenCamera(name), a).0.draws == h
    ensures Conforms(Take(w, Domain(Invoke(Opener(name), a))), h)
  {
    WatchOneMore(w.d.trace, Entry(Opener(name), OpenCamera(name), Got(h)), h);
  }

  lemma OthersCallConforms(w: World, h: Id, who: Actor, a: Answer)
    requires TablesMatch(w.t, w.d) && CanCall(w.d, who) && Conforms(w, h) && who != Cam(h)
    requires Serve(w.t, CallOf(w.d, who), a).0.draws < U64
    ensures Conforms(Take(w, Domain(Invoke(who, a))), h)
  {
    ReplyIdIsNext(w.t, CallOf(w.d, who), a);
    HandlesMatch(w.t, w.d);
    OwnCallsOnly(w.d, who, h);
    if who.Opener? && Serve(w.t, CallOf(w.d, who), a).1 == Got(h) {
      BornConforms(w, h, who.name, a);
    } else {
      UnseenConforms(w, h, who, a);
    }
  }

  lemma EnterConforms(w: World, h: Id, e: Event)
    requires Conforms(w, h)
    ensures Conforms(w.(d := Enter(w.d, e)), h)
  {
    if h in w.d.cams && w.d.cams[h].pc.Ready? {
      EnteringObserved(w.d.cams[h], Watch(w.d.trace, h).value,
                       if e.Start? then e.buffers else 0, if e.Start? then e.closure else 0);
    }
  }

  /** In every run, for every handle, the observer follows the camera. */
  lemma {:induction false} RunsConform(xs: seq<Step>, h: Id)
    requires Run(xs).t.draws < U64
    ensures Conforms(Run(xs), h)
  {
    if xs != [] {
      var w, x := Run(xs[..|xs| - 1]), xs[|xs| - 1];
      StepDraws(w, x);
      RunsConform(xs[..|xs| - 1], h);
      TablesAlwaysMatch(xs[..|xs| - 1]);
      match x {
        case Domain(Invoke(who, a)) =>
          if CanCall(w.d, who) {
            if who == Cam(h) {
              OwnReply(w.t, w.d, h, a);
              OwnCallConforms(w, h, a);
            } else {
              OthersCallConforms(w, h, who, a);
            }
          }
        case Domain(e) => EnterConforms(w, h, e);
        case Deliver(_) =>
      }
    }
  }

  /** No call on a handle is made by anybody but its camera. */
  predicate OnlyTheCameraCalls(trace: seq<Entry>) {
    forall i :: 0 <= i < |trace| && Named(trace[i].call).Some? ==> trace[i].who == Cam(Named(trace[i].call).value)
  }

  lemma {:induction false} HandlesAreOwned(xs: seq<Step>)
    requires Run(xs).t.draws < U64
    ensures OnlyTheCameraCalls(Run(xs).d.trace)
  {
    if xs != [] {
      var w, x := Run(xs[..|xs| - 1]), xs[|xs| - 1];
      StepDraws(w, x);
      HandlesAreOwned(xs[..|xs| - 1]);
      if x.Domain? && x.e.Invoke? && CanCall(w.d, x.e.who) {
        TablesAlwaysMatch(xs[..|xs| - 1]);
        HandlesMatch(w.t, w.d);
        CallIsOwned(w.d, x.e.who, Serve(w.t, CallOf(w.d, x.e.who), x.e.answer).1);
      }
    }
  }

  lemma CallIsOwned(d: State, who: Actor, r: Reply)
    requires CanCall(d, who) && forall k <- d.cams :: d.cams[k].handle == k
    requires OnlyTheCameraCalls(d.trace)
    ensures OnlyTheCameraCalls(Receive(d, who, r).trace)
  {
    if Named(CallOf(d, who)).Some? {
      OwnCallsOnly(d, who, Named(CallOf(d, who)).value);
    }
  }

  // --- The ordering rule of the port, in plain terms --------------------

  /** The port says the fake enforces that frames are queued only during a
      capture. It does not: it refuses a frame only when a failure was
      injected, whatever is capturing, announced or installed. */
  lemma FakeAcceptsQueueIff(t: Tables, h: Id, slot: Id, cb: Id, a: Answer)
    ensures Serve(t, QueueFrame(h, slot, cb), a).1 == Done <==> a.fail.None?
  {
  }

  /** On a fake on which nothing ever happened, a frame never announced is
      queued on a camera never opened, which is listed as capturing. */
  lemma FakeQueuesOutsideCapture(h: Id, slot: Id, cb: Id)
    ensures Serve(NO_TABLES, QueueFrame(h, slot, cb), Answer(None, 0, 0, 0))
         == (NO_TABLES.(active := map[h := [(slot, cb)]]), Done)
  {
    assert [] + [(slot, cb)] == [(slot, cb)];
  }

  lemma {:induction false} PrefixesAccepted(trace: seq<Entry>, n: nat, h: Id)
    requires n <= |trace| && Watch(trace, h).Some?
    ensures Watch(trace[..n], h).Some?
  {
    if n < |trace| {
      assert trace[..|trace| - 1][..n] == trace[..n];
      PrefixesAccepted(trace[..|trace| - 1], n, h);
    } else {
      assert trace[..n] == trace;
    }
  }

  /** Position `j` starts a capture of `h` that is not ended before `n`. */
  predicate CapturingSince(trace: seq<Entry>, j: nat, n: nat, h: Id) {
    && j < n <= |trace|
    && trace[j].call == CaptureStart(h) && trace[j].reply == Done
    && forall k :: j < k < n ==> trace[k].call != CaptureEnd(h)
  }

  lemma {:induction false} CapturingHasStart(trace: seq<Entry>, h: Id) returns (j: nat)
    requires Watch(trace, h).Some? && Watch(trace, h).value.capturing
    ensures CapturingSince(trace, j, |trace|, h)
  {
    var front, x := trace[..|trace| - 1], trace[|trace| - 1];
    var m := Watch(front, h).value;
    if Concerns(x, h) && !m.capturing {
      OnlyStartsCapture(m, h, x.call, x.reply);
      j := |trace| - 1;
    } else {
      if Concerns(x, h) {
        EndStopsCapture(m, h, x.call, x.reply);
      }
      j := CapturingHasStart(front, h);
      LongerSince(trace, j, h);
    }
  }

  lemma OnlyStartsCapture(m: Monitor, h: Id, call: Call, r: Reply)
    requires Observe(m, h, call, r).Some? && Observe(m, h, call, r).value.capturing && !m.capturing
    ensures call == CaptureStart(h) && r == Done
  {
  }

  lemma EndStopsCapture(m: Monitor, h: Id, call: Call, r: Reply)
    requires Observe(m, h, call, r).Some? && Observe(m, h, call, r).value.capturing
    ensures call != CaptureEnd(h)
  {
  }

  lemma LongerSince(trace: seq<Entry>, j: nat, h: Id)
    requires trace != [] && CapturingSince(trace[..|trace| - 1], j, |trace| - 1, h)
    requires trace[|trace| - 1].call != CaptureEnd(h)
    ensures CapturingSince(trace, j, |trace|, h)
  {
    SinceInPrefix(trace, j, |trace| - 1, h);
  }

  lemma QueueSeesCapture(m: Monitor, h: Id, call: Call, r: Reply)
    requires call.QueueFrame? && Observe(m, h, call, r).Some?
    ensures m.capturing
  {
  }

  lemma SinceInPrefix(trace: seq<Entry>, j: nat, n: nat, h: Id)
    requires n <= |trace| && CapturingSince(trace[..n], j, n, h)
    ensures CapturingSince(trace, j, n, h)
  {
    forall k | j < k < n
      ensures trace[k].call != CaptureEnd(h)
    {
      assert trace[..n][k] == trace[k];
    }
  }

  lemma QueueNeedsCapture(trace: seq<Entry>, i: nat, h: Id) returns (j: nat)
    requires Watch(trace, h).Some? && i < |trace|
    requires trace[i].call.QueueFrame? && trace[i].call.h == h
    ensures CapturingSince(trace, j, i, h)
  {
    PrefixesAccepted(trace, i + 1, h);
    PrefixesAccepted(trace, i, h);
    assert trace[..i + 1] == trace[..i] + [trace[i]];
    WatchOneMore(trace[..i], trace[i], h);
    QueueSeesCapture(Watch(trace[..i], h).value, h, trace[i].call, trace[i].reply);
    j := CapturingHasStart(trace[..i], h);
    SinceInPrefix(trace, j, i, h);
  }

  /** Position `i` lies between a successful `capture_start` of `h` and the
      next `capture_end`. */
  predicate WithinCapture(trace: seq<Entry>, i: nat, h: Id) {
    exists j: nat :: j < |trace| && CapturingSince(trace, j, i, h)
  }

  predicate QueuesWithinCaptures(trace: seq<Entry>) {
    forall i: nat :: i < |trace| && trace[i].call.QueueFrame? ==> WithinCapture(trace, i, trace[i].call.h)
  }

  /** Every `queue_frame` of every run lies between a successful
      `capture_start` on its camera and the next `capture_end`, although the
      fake accepts it anywhere. */
  lemma QueueOnlyWhileCapturing(w: World)
    requires Reachable(w)
    ensures QueuesWithinCaptures(w.d.trace)
  {
    var xs :| Run(xs) == w;
    forall i: nat | i < |w.d.trace| && w.d.trace[i].call.QueueFrame?
      ensures WithinCapture(w.d.trace, i, w.d.trace[i].call.h)
    {
      RunsConform(xs, w.d.trace[i].call.h);
      var j := QueueNeedsCapture(w.d.trace, i, w.d.trace[i].call.h);
    }
  }

  /** Protocol conformance: at every point of every run, for every handle, the
      sequence of calls on it, by whomever, is accepted. */
  lemma EveryRunConforms(w: World, h: Id)
    requires Reachable(w)
    ensures Watch(w.d.trace, h).Some?
  {
    var xs :| Run(xs) == w;
    RunsConform(xs, h);
  }

  /** And no call on a handle is made by anybody but its camera. */
  lemma OnlyCamerasUseTheirHandles(w: World)
    requires Reachable(w)
    ensures OnlyTheCameraCalls(w.d.trace)
  {
    var xs :| Run(xs) == w;
    HandlesAreOwned(xs);
  }
}
