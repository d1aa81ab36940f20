/** `Camera` as a program that makes one port call at a time.

    `Next` is the call the program is about to make and `Advance` is where it
    goes with the reply, so the same program runs over any adapter and any
    number of cameras can be interleaved call by call. */
module CameraProgram {
  import opened Port

  /** What a running capture holds: the callback id and the announced slots. */
  datatype Session = Session(callbackId: Id, slots: seq<Id>)

  /** Why a teardown is under way, which decides what follows it. */
  datatype Purpose = Unwinding(error: VmbError) | Stopping | Dropping

  /** The steps between installing the callback and uninstalling it. `live`
      remembers how far the queue loop came. */
  datatype Stage =
    | Announcing(size: nat)
    | Starting
    | Queueing(queued: nat)
    | Acquiring
    | Halting(why: Purpose)
    | Ending(live: Option<nat>, why: Purpose)
    | Flushing(why: Purpose)
    | Revoking(why: Purpose)
    | Uninstalling(why: Purpose)

  /** The point between two port calls. */
  datatype Pc =
    | Ready
    | Sizing
    | Installing(size: nat)
    | Within(s: Session, stage: Stage)
    | Closing
    | Dropped

  /** An open camera. `buffers` and `given` are the arguments of the latest
      `start_capture`, and `outcome` is what its latest method returned. */
  datatype CameraState = CameraState(
    handle: Id,
    session: Option<Session>,
    buffers: nat,
    given: Closure,
    outcome: Outcome,
    pc: Pc)

  function Opened(h: Id): CameraState {
    CameraState(h, None, 0, 0, Ok, Ready)
  }

  predicate Busy(c: CameraState) {
    !c.pc.Ready? && !c.pc.Dropped?
  }

  // --- Entering a method ------------------------------------------------

  function BeginStart(c: CameraState, buffers: nat, closure: Closure): CameraState
    requires c.pc.Ready?
  {
    if c.session.Some? then c.(outcome := Err(CaptureAlreadyRunning))
    else c.(buffers := buffers, given := closure, pc := Sizing)
  }

  function BeginStop(c: CameraState): CameraState
    requires c.pc.Ready?
  {
    match c.session
    case None => c.(outcome := Ok)
    case Some(s) => c.(session := None, pc := Within(s, Halting(Stopping)))
  }

  function BeginDrop(c: CameraState): CameraState
    requires c.pc.Ready?
  {
    match c.session
    case None => c.(pc := Closing)
    case Some(s) => c.(session := None, pc := Within(s, Halting(Dropping)))
  }

  // --- One port call ----------------------------------------------------

  function Next(c: CameraState): Call
    requires Busy(c) && Shaped(c)
  {
    match c.pc
    case Sizing => PayloadSize(c.handle)
    case Installing(_) => InstallFrameCallback(c.given)
    case Within(s, stage) => NextWithin(c.handle, s, stage)
    case Closing => CloseCamera(c.handle)
  }

  function NextWithin(h: Id, s: Session, stage: Stage): Call
    requires stage.Queueing? ==> stage.queued < |s.slots|
  {
    match stage
    case Announcing(size) => AnnounceFrame(h, size)
    case Starting => CaptureStart(h)
    case Queueing(k) => QueueFrame(h, s.slots[k], s.callbackId)
    case Acquiring => RunFeatureCommand(h, AcquisitionStart)
    case Halting(_) => RunFeatureCommand(h, AcquisitionStop)
    case Ending(_, _) => CaptureEnd(h)
    case Flushing(_) => CaptureQueueFlush(h)
    case Revoking(_) => FrameRevokeAll(h)
    case Uninstalling(_) => UninstallFrameCallback(s.callbackId)
  }

  /** The head of the announce loop. */
  function AnnounceLoop(buffers: nat, size: nat, s: Session): Pc {
    Within(s, if |s.slots| < buffers then Announcing(size) else Starting)
  }

  /** The head of the queue loop. */
  function QueueLoop(s: Session, k: nat): Pc {
    Within(s, if k < |s.slots| then Queueing(k) else Acquiring)
  }

  /** The error a fallible call propagates; code 0 stands for a reply of the
      wrong kind, which no adapter gives. */
  function ErrorOf(r: Reply): VmbError {
    if r.Failed? then r.error else Sdk(0)
  }

  function Unwind(s: Session, live: Option<nat>, r: Reply): Pc {
    Within(s, Ending(live, Unwinding(ErrorOf(r))))
  }

  function Advance(c: CameraState, r: Reply): CameraState
    requires Busy(c)
  {
    match c.pc
    case Sizing =>
      if r.Size? then c.(pc := Installing(r.bytes))
      else c.(pc := Ready, outcome := Err(ErrorOf(r)))
    case Installing(size) =>
      if r.Got? then c.(pc := AnnounceLoop(c.buffers, size, Session(r.id, [])))
      else c.(pc := Ready, outcome := Err(ErrorOf(r)))
    case Within(s, stage) => AdvanceWithin(c, s, stage, r)
    case Closing => c.(pc := Dropped)
  }

  function AdvanceWithin(c: CameraState, s: Session, stage: Stage, r: Reply): CameraState {
    match stage
    case Announcing(size) =>
      if r.Got? then c.(pc := AnnounceLoop(c.buffers, size, s.(slots := s.slots + [r.id])))
      else c.(pc := Unwind(s, None, r))
    case Starting =>
      if r.Done? then c.(pc := QueueLoop(s, 0)) else c.(pc := Unwind(s, None, r))
    case Queueing(k) =>
      if r.Done? then c.(pc := QueueLoop(s, k + 1)) else c.(pc := Unwind(s, Some(k), r))
    case Acquiring =>
      if r.Done? then c.(pc := Ready, session := Some(s), outcome := Ok)
      else c.(pc := Unwind(s, Some(|s.slots|), r))
    case Halting(why) => c.(pc := Within(s, Ending(Some(|s.slots|), why)))
    case Ending(_, why) => c.(pc := Within(s, Flushing(why)))
    case Flushing(why) => c.(pc := Within(s, Revoking(why)))
    case Revoking(why) => c.(pc := Within(s, Uninstalling(why)))
    case Uninstalling(why) => Finish(c, why)
  }

  function Finish(c: CameraState, why: Purpose): CameraState {
    match why
    case Unwinding(e) => c.(pc := Ready, outcome := Err(e))
    case Stopping => c.(pc := Ready, outcome := Ok)
    case Dropping => c.(pc := Closing)
  }

  // --- What a camera holds at each point --------------------------------

  /** The slots the camera has announced and not yet revoked. */
  function SlotsOf(c: CameraState): seq<Id> {
    match c.pc
    case Ready => if c.session.Some? then c.session.value.slots else []
    case Within(s, stage) => if stage.Uninstalling? then [] else s.slots
    case _ => []
  }

  /** How many of those slots are queued on a started capture, if one is. */
  function LiveOf(c: CameraState): Option<nat> {
    match c.pc
    case Ready => if c.session.Some? then Some(|c.session.value.slots|) else None
    case Within(s, stage) => LiveWithin(s, stage)
    case _ => None
  }

  function LiveWithin(s: Session, stage: Stage): Option<nat> {
    match stage
    case Queueing(k) => Some(k)
    case Acquiring => Some(|s.slots|)
    case Halting(_) => Some(|s.slots|)
    case Ending(live, _) => live
    case _ => None
  }

  /** The callback the camera has installed, if any. */
  function CallbackOf(c: CameraState): Option<Id> {
    match c.pc
    case Ready => if c.session.Some? then Some(c.session.value.callbackId) else None
    case Within(s, _) => Some(s.callbackId)
    case _ => None
  }

  /** The fake's capture-table entry for a camera: its queued prefix, in
      announce order, each slot with the installed callback. */
  function Queued(c: CameraState): seq<(Id, Id)>
    requires LiveOf(c).Some? && Shaped(c)
  {
    Pairs(SlotsOf(c)[..LiveOf(c).value], CallbackOf(c).value)
  }

  function Pairs(slots: seq<Id>, cb: Id): seq<(Id, Id)> {
    seq(|slots|, i requires 0 <= i < |slots| => (slots[i], cb))
  }

  /** The shape every reachable program has: loops are within bounds, and a
      session is stored only between methods, fully announced. */
  predicate Shaped(c: CameraState) {
    && (c.session.Some? ==> c.pc.Ready? && |c.session.value.slots| == c.buffers)
    && (c.pc.Within? ==> ShapedWithin(c.buffers, c.pc.s, c.pc.stage))
  }

  predicate ShapedWithin(buffers: nat, s: Session, stage: Stage) {
    match stage
    case Announcing(_) => |s.slots| < buffers
    case Queueing(k) => k < |s.slots| == buffers
    case Halting(why) => |s.slots| == buffers && !why.Unwinding?
    case Starting => |s.slots| == buffers
    case Acquiring => |s.slots| == buffers
    case Ending(live, _) => |s.slots| <= buffers && (live.Some? ==> live.value <= |s.slots|)
    case _ => |s.slots| <= buffers
  }

  lemma AdvanceKeepsShape(c: CameraState, r: Reply)
    requires Busy(c) && Shaped(c)
    ensures Shaped(Advance(c, r)) && Advance(c, r).handle == c.handle
  {
  }

  /** A bound on the port calls left before the program is ready or gone. */
  function Remaining(c: CameraState): nat
    requires Shaped(c)
  {
    match c.pc
    case Ready => 0
    case Dropped => 0
    case Closing => 1
    case Within(s, stage) => RemainingWithin(c.buffers, s, stage)
    case Installing(_) => 11 + c.buffers + c.buffers
    case Sizing => 12 + c.buffers + c.buffers
  }

  function RemainingWithin(buffers: nat, s: Session, stage: Stage): nat
    requires ShapedWithin(buffers, s, stage)
  {
    match stage
    case Uninstalling(_) => 2
    case Revoking(_) => 3
    case Flushing(_) => 4
    case Ending(_, _) => 5
    case Halting(_) => 6
    case Acquiring => 7
    case Queueing(k) => 8 + buffers - k
    case Starting => 9 + buffers
    case Announcing(_) => 9 + buffers + buffers - |s.slots|
  }

  lemma LoopsProgress(c: CameraState, r: Reply)
    requires Busy(c) && Shaped(c) && c.pc.Within?
    requires c.pc.stage.Announcing? || c.pc.stage.Starting? || c.pc.stage.Queueing? || c.pc.stage.Acquiring?
    ensures Shaped(Advance(c, r)) && Remaining(Advance(c, r)) < Remaining(c)
  {
  }

  lemma TeardownProgresses(c: CameraState, r: Reply)
    requires Busy(c) && Shaped(c) && c.pc.Within?
    requires !c.pc.stage.Announcing? && !c.pc.stage.Starting? && !c.pc.stage.Queueing? && !c.pc.stage.Acquiring?
    ensures Shaped(Advance(c, r)) && Remaining(Advance(c, r)) < Remaining(c)
  {
  }

  lemma AdvanceProgresses(c: CameraState, r: Reply)
    requires Busy(c) && Shaped(c)
    ensures Shaped(Advance(c, r)) && Remaining(Advance(c, r)) < Remaining(c)
  {
    if c.pc.Within? {
      match c.pc.stage {
        case Announcing(_) => LoopsProgress(c, r);
        case Starting => LoopsProgress(c, r);
        case Queueing(_) => LoopsProgress(c, r);
        case Acquiring => LoopsProgress(c, r);
        case _ => TeardownProgresses(c, r);
      }
    }
  }
}
