/** Runs of a system over the fake: any number of cameras and subscriptions,
    interleaved one port call at a time, with any call failing. */
module FakeWorld {
  import opened Port
  import opened CameraProgram
  import opened FakeModel
  import opened Domain

  datatype Step = Domain(e: Event) | Deliver(h: Id)

  /** A frame handed to a user closure by `deliver_frame`. */
  datatype Delivery = Delivery(h: Id, closure: Closure, frameId: Id)

  datatype World = World(t: Tables, d: State, delivered: seq<Delivery>)

  const INITIAL := World(NO_TABLES, NO_CLIENTS, [])

  /** `deliver_frame`: the closure of the first queued slot is invoked with
      a frame id from the shared counter. */
  function DeliverFrame(t: Tables, h: Id): (Tables, Option<Delivery>) {
    if h !in t.active || t.active[h] == [] then (t, None)
    else if t.active[h][0].1 !in t.frameCallbacks then (t, None)
    else (t.(draws := t.draws + 1),
          Some(Delivery(h, t.frameCallbacks[t.active[h][0].1], IdAfter(t.draws))))
  }

  /** `emit_discovery` over the installed callbacks: each is invoked once, in
      some order, with the closure it was installed with. */
  predicate Emitted(callbacks: map<Id, Closure>, order: seq<Id>, invoked: seq<Closure>) {
    && |order| == |invoked| && multiset(order) == multiset(callbacks.Keys)
    && forall i :: 0 <= i < |order| ==> order[i] in callbacks && invoked[i] == callbacks[order[i]]
  }

  function Take(w: World, x: Step): World {
    match x
    case Domain(Invoke(who, a)) =>
      if CanCall(w.d, who) then
        var (t', r) := Serve(w.t, CallOf(w.d, who), a);
        w.(t := t', d := Receive(w.d, who, r))
      else w
    case Domain(e) => w.(d := Enter(w.d, e))
    case Deliver(h) =>
      var (t', out) := DeliverFrame(w.t, h);
      w.(t := t', delivered := if out.Some? then w.delivered + [out.value] else w.delivered)
  }

  function Run(xs: seq<Step>): World {
    if xs == [] then INITIAL else Take(Run(xs[..|xs| - 1]), xs[|xs| - 1])
  }

  /** The worlds a run ends in while the id counter has not wrapped. */
  ghost predicate Reachable(w: World) {
    exists xs :: Run(xs) == w && w.t.draws < U64
  }
}
