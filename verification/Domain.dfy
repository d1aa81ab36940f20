/** Every open camera and every discovery subscription of one system, with
    the history of their port calls. Any of them may make the next call. */
module Domain {
  import opened Port
  import opened CameraProgram

  /** A discovery subscription between two port calls. */
  datatype Phase =
    | Registering
    | Subscribed(handle: Id)
    | Unregistering(handle: Id)
    | Releasing

  datatype Registration = Registration(closure: Closure, phase: Phase)

  /** Who makes a call. Opening a camera and installing a discovery callback
      are the first calls of a camera and of a subscription yet to exist. */
  datatype Actor =
    | Opener(name: string)
    | Cam(h: Id)
    | Registrar(closure: Closure)
    | Sub(cb: Id)

  datatype Entry = Entry(who: Actor, call: Call, reply: Reply)

  datatype State = State(
    cams: map<Id, CameraState>,
    regs: map<Id, Registration>,
    trace: seq<Entry>)

  const NO_CLIENTS := State(map[], map[], [])

  /** One scheduling decision: a port call with the environment's answer, or
      the entry into a method. */
  datatype Event =
    | Invoke(who: Actor, answer: Answer)
    | Start(h: Id, buffers: nat, closure: Closure)
    | Stop(h: Id)
    | Drop(h: Id)
    | Unsubscribe(cb: Id)

  predicate CanCall(d: State, who: Actor) {
    match who
    case Opener(_) => true
    case Registrar(_) => true
    case Cam(h) => h in d.cams && Shaped(d.cams[h]) && Busy(d.cams[h])
    case Sub(cb) => cb in d.regs && !d.regs[cb].phase.Subscribed?
  }

  function CallOf(d: State, who: Actor): Call
    requires CanCall(d, who)
  {
    match who
    case Opener(name) => OpenCamera(name)
    case Registrar(closure) => InstallDiscoveryCallback(closure)
    case Cam(h) => Next(d.cams[h])
    case Sub(cb) =>
      match d.regs[cb].phase {
        case Registering => RegisterDiscovery(cb)
        case Unregistering(r) => UnregisterDiscovery(r)
        case Releasing => UninstallDiscoveryCallback(cb)
      }
  }

  function Receive(d: State, who: Actor, r: Reply): State
    requires CanCall(d, who)
  {
    var d' := d.(trace := d.trace + [Entry(who, CallOf(d, who), r)]);
    match who
    case Opener(_) =>
      if r.Got? then d'.(cams := d.cams[r.id := Opened(r.id)]) else d'
    case Registrar(closure) =>
      if r.Got? then d'.(regs := d.regs[r.id := Registration(closure, Registering)]) else d'
    case Cam(h) =>
      var c' := Advance(d.cams[h], r);
      d'.(cams := if c'.pc.Dropped? then d.cams - {h} else d.cams[h := c'])
    case Sub(cb) => d'.(regs := SubReceive(d.regs, cb, r))
  }

  function SubReceive(regs: map<Id, Registration>, cb: Id, r: Reply): map<Id, Registration>
    requires cb in regs && !regs[cb].phase.Subscribed?
  {
    match regs[cb].phase
    case Registering =>
      if r.Got? then regs[cb := regs[cb].(phase := Subscribed(r.id))]
      else regs[cb := regs[cb].(phase := Releasing)]
    case Unregistering(_) => regs[cb := regs[cb].(phase := Releasing)]
    case Releasing => regs - {cb}
  }

  /** Entering a method makes no port call. */
  function Enter(d: State, e: Event): State {
    match e
    case Invoke(_, _) => d
    case Start(h, buffers, closure) =>
      if h in d.cams && d.cams[h].pc.Ready?
      then d.(cams := d.cams[h := BeginStart(d.cams[h], buffers, closure)]) else d
    case Stop(h) =>
      if h in d.cams && d.cams[h].pc.Ready?
      then d.(cams := d.cams[h := BeginStop(d.cams[h])]) else d
    case Drop(h) =>
      if h in d.cams && d.cams[h].pc.Ready?
      then d.(cams := d.cams[h := BeginDrop(d.cams[h])]) else d
    case Unsubscribe(cb) =>
      if cb in d.regs && d.regs[cb].phase.Subscribed?
      then d.(regs := d.regs[cb := d.regs[cb].(phase := Unregistering(d.regs[cb].phase.handle))]) else d
  }

  /** No method is in progress. */
  predicate Quiescent(d: State) {
    && (forall h <- d.cams :: d.cams[h].pc.Ready?)
    && (forall cb <- d.regs :: d.regs[cb].phase.Subscribed?)
  }
}
