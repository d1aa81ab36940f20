/** The vocabulary of the runtime port: what the domain asks of an adapter,
    what the adapter answers, and what the world outside decides.

    Handles, slots, callback ids and registration handles are all drawn from
    one counter, so they share one type. Closures are opaque tokens. */
module Port {

  datatype Option<+T> = None | Some(value: T)

  /** A 64-bit id as issued by an adapter. */
  type Id = nat

  /** The identity of a user closure. */
  type Closure = nat

  /** The address of a heap allocation, or the SDK's own camera pointer. */
  type Addr = nat

  /** The labels the FFI adapter puts on a rejected string or id. */
  datatype Label =
    | CameraName
    | CameraHandle
    | FrameCallbackId
    | FrameSlotId
    | DiscoveryCallbackId

  datatype VmbError =
    | Sdk(code: int)
    | AlreadyStarted
    | CaptureAlreadyRunning
    | InvalidString(context: Label)

  datatype Command = AcquisitionStart | AcquisitionStop

  /** One call through the port. */
  datatype Call =
    | OpenCamera(name: string)
    | CloseCamera(h: Id)
    | RunFeatureCommand(h: Id, command: Command)
    | PayloadSize(h: Id)
    | AnnounceFrame(h: Id, size: nat)
    | CaptureStart(h: Id)
    | QueueFrame(h: Id, slot: Id, cb: Id)
    | CaptureEnd(h: Id)
    | CaptureQueueFlush(h: Id)
    | FrameRevokeAll(h: Id)
    | RegisterDiscovery(cb: Id)
    | UnregisterDiscovery(r: Id)
    | InstallFrameCallback(closure: Closure)
    | UninstallFrameCallback(cb: Id)
    | InstallDiscoveryCallback(closure: Closure)
    | UninstallDiscoveryCallback(cb: Id)

  /** What a call returns. `Panicked` is the `expect` on a zero id. */
  datatype Reply =
    | Done
    | Got(id: Id)
    | Size(bytes: nat)
    | Failed(error: VmbError)
    | Panicked

  /** What the environment decides about one call: whether the operation
      behind it fails, the payload size it reports, the SDK pointer it hands
      out and the address the allocator picks. */
  datatype Answer = Answer(fail: Option<VmbError>, payload: nat, raw: Addr, addr: Addr)

  /** The outcome of a method of the domain. */
  datatype Outcome = Ok | Err(error: VmbError)

  const U64: nat := 0x1_0000_0000_0000_0000

  /** The id issued by the draw that follows `draws` earlier ones: the counter
      starts at 1 and `fetch_add` wraps at 2^64. */
  function IdAfter(draws: nat): (id: Id)
    ensures id < U64
  {
    (1 + draws) % 0x1_0000_0000_0000_0000
  }

  /** As long as the counter has not wrapped, the k-th draw issues k. */
  lemma UnwrappedId(draws: nat)
    requires draws + 1 < U64
    ensures IdAfter(draws) == draws + 1
  {
  }

  /** Two draws issue the same id exactly when they are a multiple of 2^64
      apart, so the first `n` draws issue distinct ids iff `n <= 2^64`. */
  lemma DistinctIdsIff(n: nat)
    ensures (forall i, j :: 0 <= i < j < n ==> IdAfter(i) != IdAfter(j)) <==> n <= U64
  {
    if n <= U64 {
      forall i, j | 0 <= i < j < n
        ensures IdAfter(i) != IdAfter(j)
      {
        if IdAfter(i) == IdAfter(j) {
          SameRemainder(1 + i, 1 + j);
        }
      }
    } else {
      assert (1 + U64) % U64 == 1;
      assert IdAfter(0) == IdAfter(U64);
    }
  }

  lemma SameRemainder(a: nat, b: nat)
    requires a < b && a % U64 == b % U64
    ensures b - a >= U64
  {
    assert a == (a / U64) * U64 + a % U64;
    assert b == (b / U64) * U64 + b % U64;
  }

  /** No id is zero among the first `n` draws exactly when `n < 2^64`. */
  lemma NonZeroIdsIff(n: nat)
    ensures (forall i :: 0 <= i < n ==> IdAfter(i) != 0) <==> n < U64
  {
    if n >= U64 {
      assert IdAfter(U64 - 1) == 0;
    }
  }
}
