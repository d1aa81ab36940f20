/** The two-phase enumeration of the FFI adapter: ask the SDK how many cameras
    there are, then have it fill a buffer of that many entries. The set of
    cameras may change in between. */
module ListCameras {
  import opened Port

  /** An entry as the SDK fills it: its string pointers may be null. */
  datatype RawInfo = RawInfo(id: Option<string>, model: Option<string>, serial: Option<string>, name: Option<string>)

  datatype CameraInfo = CameraInfo(id: string, model: string, serial: string, name: string)

  datatype Listing = Listed(cameras: seq<CameraInfo>) | NotListed(error: VmbError)

  const ZEROED := RawInfo(None, None, None, None)

  function Owned(s: Option<string>): string {
    if s.Some? then s.value else "<unknown>"
  }

  function Convert(raw: RawInfo): CameraInfo {
    CameraInfo(Owned(raw.id), Owned(raw.model), Owned(raw.serial), Owned(raw.name))
  }

  /** A string the SDK gave is copied; a null pointer reads as unknown. */
  predicate Copied(from: Option<string>, to: string) {
    && (from.Some? ==> to == from.value)
    && (from.None? ==> to == "<unknown>")
  }

  /** Each field of a listed camera comes from the field of that name. */
  predicate Describes(c: CameraInfo, raw: RawInfo) {
    && Copied(raw.id, c.id) && Copied(raw.model, c.model)
    && Copied(raw.serial, c.serial) && Copied(raw.name, c.name)
  }

  predicate Unknown(c: CameraInfo) {
    c.id == "<unknown>" && c.model == "<unknown>" && c.serial == "<unknown>" && c.name == "<unknown>"
  }

  /** What a successful enumeration lists: min(count, found) cameras, each
      described by the entry the SDK filled at its place, and unknown where it
      filled none. */
  predicate Lists(size: Answered, fill: Answered, cameras: seq<CameraInfo>) {
    && |cameras| <= size.count && |cameras| <= fill.count
    && (|cameras| == size.count || |cameras| == fill.count)
    && forall i :: 0 <= i < |cameras| ==>
         if i < |fill.entries| then Describes(cameras[i], fill.entries[i]) else Unknown(cameras[i])
  }

  /** What the SDK does with a query: it fails, or reports `count` entries and
      has written `entries` from the start of the buffer. */
  datatype Answered = Answered(fail: Option<VmbError>, count: nat, entries: seq<RawInfo>)

  function Min(a: nat, b: nat): nat {
    if a < b then a else b
  }

  /** The buffer once the SDK has written into it. */
  function Buffer(size: Answered, fill: Answered): (b: seq<RawInfo>)
    ensures |b| == size.count
  {
    seq(size.count, i => if 0 <= i < |fill.entries| then fill.entries[i] else ZEROED)
  }

  function Converted(raws: seq<RawInfo>): (cameras: seq<CameraInfo>)
    ensures |cameras| == |raws|
  {
    seq(|raws|, i requires 0 <= i < |raws| => Convert(raws[i]))
  }

  /** What an enumeration returns: the first min(count, found) entries. */
  function Enumerated(size: Answered, fill: Answered): Listing {
    if size.fail.Some? then NotListed(size.fail.value)
    else if size.count == 0 then Listed([])
    else if fill.fail.Some? then NotListed(fill.fail.value)
    else Listed(Converted(Buffer(size, fill)[..Min(size.count, fill.count)]))
  }

  lemma EnumerationLists(size: Answered, fill: Answered)
    requires |fill.entries| <= size.count
    ensures size.fail.None? && size.count > 0 && fill.fail.None? ==>
      Enumerated(size, fill).Listed? && Lists(size, fill, Enumerated(size, fill).cameras)
  {
  }

  /** The listing, and how many queries it took. The populate query never
      writes past the buffer it is given. */
  method List(size: Answered, fill: Answered) returns (r: Listing, queries: nat)
    requires |fill.entries| <= size.count
    ensures queries == if size.fail.Some? || size.count == 0 then 1 else 2
    ensures r == Enumerated(size, fill)
    ensures size.fail.Some? ==> r == NotListed(size.fail.value)
    ensures size.fail.None? && size.count == 0 ==> r == Listed([])
    ensures size.fail.None? && size.count > 0 && fill.fail.Some? ==> r == NotListed(fill.fail.value)
    ensures size.fail.None? && size.count > 0 && fill.fail.None? ==> r.Listed? && Lists(size, fill, r.cameras)
  {
    EnumerationLists(size, fill);
    queries := 1;
    if size.fail.Some? {
      return NotListed(size.fail.value), queries;
    }
    if size.count == 0 {
      return Listed([]), queries;
    }
    var buffer := new RawInfo[size.count](_ => ZEROED);
    queries := 2;
    forall i | 0 <= i < |fill.entries| {
      buffer[i] := fill.entries[i];
    }
    if fill.fail.Some? {
      return NotListed(fill.fail.value), queries;
    }
    var kept := Min(size.count, fill.count);
    var cameras := [];
    var i := 0;
    while i < kept
      invariant i <= kept && |cameras| == i
      invariant cameras == Converted(buffer[..i])
    {
      cameras := cameras + [Convert(buffer[i])];
      i := i + 1;
    }
    assert buffer[..] == Buffer(size, fill);
    return Listed(cameras), queries;
  }

  /** An SDK that sees `before` at the size query and `after` at the populate
      query, fills what fits, and reports either what it filled or all there
      is. */
  predicate Honest(size: Answered, fill: Answered, before: seq<RawInfo>, after: seq<RawInfo>) {
    && size.fail.None? && size.count == |before|
    && fill.fail.None? && fill.entries == after[..Min(|before|, |after|)]
    && (fill.count == |fill.entries| || fill.count == |after|)
  }

  /** The cameras are exactly those of `raws`, in order, field by field. */
  predicate DescribesAll(cameras: seq<CameraInfo>, raws: seq<RawInfo>) {
    |cameras| == |raws| && forall i :: 0 <= i < |raws| ==> Describes(cameras[i], raws[i])
  }

  /** Over an honest SDK the listing describes a prefix of the cameras there at
      the second query, and all of them exactly when their number did not grow
      in between. */
  lemma HonestListing(size: Answered, fill: Answered, before: seq<RawInfo>, after: seq<RawInfo>)
    requires Honest(size, fill, before, after)
    ensures Enumerated(size, fill).Listed?
    ensures DescribesAll(Enumerated(size, fill).cameras, after[..Min(|before|, |after|)])
    ensures DescribesAll(Enumerated(size, fill).cameras, after) <==> |after| <= |before|
  {
    var n := Min(|before|, |after|);
    if |before| > 0 {
      EnumerationLists(size, fill);
      assert Min(size.count, fill.count) == n;
      assert fill.entries == after[..n];
    }
    if |after| <= |before| {
      assert after[..n] == after;
    }
  }

  /** Entries the SDK counts but did not fill come back as unknown cameras, the
      others as it described them. */
  lemma OvercountedListing(size: Answered, fill: Answered, i: nat)
    requires size.fail.None? && fill.fail.None? && |fill.entries| <= size.count
    requires i < Min(size.count, fill.count)
    ensures Enumerated(size, fill).Listed? && |Enumerated(size, fill).cameras| == Min(size.count, fill.count)
    ensures var c := Enumerated(size, fill).cameras[i];
      if i < |fill.entries| then Describes(c, fill.entries[i]) else Unknown(c)
  {
    EnumerationLists(size, fill);
  }
}
