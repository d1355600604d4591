/**
 * TrackingResource: a polymorphic memory resource that writes one log line
 * for every allocate/deallocate request and forwards the request, unchanged,
 * to an upstream resource.
 *
 * The upstream is a concrete resource with a byte budget (exceeding it is the
 * upstream's std::bad_alloc), an address counter and a ghost map of the blocks
 * it has handed out and not yet taken back. It compares equal only to itself,
 * as std::pmr::new_delete_resource() (the default resource) does.
 */
module PmrTracker {
  import opened Decimal
  import opened Streams

  /** The size and alignment a live block was allocated with. */
  datatype Block = Block(bytes: nat, align: nat)

  /** What memory_resource::allocate produces: an address, or the std::bad_alloc it throws. */
  datatype AllocResult = Allocated(ptr: nat) | BadAlloc

  /** The operand of is_equal: any memory_resource, told apart by its dynamic type. */
  datatype ResourceRef = Plain(resource: Upstream) | Tracker(tracker: TrackingResource)

  predicate IsPowerOfTwo(n: nat) {
    n == 1 || (n > 1 && n % 2 == 0 && IsPowerOfTwo(n / 2))
  }

  /** A non-tracking upstream resource. */
  class Upstream {
    var capacity: nat       // bytes this resource can still hand out
    var nextAddress: nat    // the address of the next block; addresses are abstract
    ghost var live: map<nat, Block>

    ghost predicate Valid()
      reads this
    {
      forall p :: p in live ==> p < nextAddress
    }

    constructor (capacity: nat)
      ensures Valid() && live == map[]
      ensures this.capacity == capacity
    {
      this.capacity := capacity;
      nextAddress := 1;
      live := map[];
    }

    /** Hands out a fresh block, or reports bad_alloc (and changes nothing) when the budget is too small. */
    method Allocate(bytes: nat, align: nat) returns (r: AllocResult)
      requires Valid() && IsPowerOfTwo(align)
      modifies this
      ensures Valid()
      ensures old(capacity) < bytes ==> r == BadAlloc && unchanged(this)
      ensures bytes <= old(capacity) ==>
        && r == Allocated(old(nextAddress))
        && old(nextAddress) !in old(live)
        && live == old(live)[old(nextAddress) := Block(bytes, align)]
        && capacity == old(capacity) - bytes
    {
      if capacity < bytes {
        r := BadAlloc;
      } else {
        r := Allocated(nextAddress);
        live := live[nextAddress := Block(bytes, align)];
        capacity := capacity - bytes;
        nextAddress := nextAddress + 1;
      }
    }

    /** Takes back a block, which must be live with exactly this size and alignment. */
    method Deallocate(ptr: nat, bytes: nat, align: nat)
      requires Valid() && ptr in live && live[ptr] == Block(bytes, align)
      modifies this
      ensures Valid()
      ensures live == old(live) - {ptr}
      ensures capacity == old(capacity) + bytes
      ensures nextAddress == old(nextAddress)
    {
      live := live - {ptr};
      capacity := capacity + bytes;
    }

    /** Identity comparison. */
    predicate IsEqual(other: ResourceRef)
      ensures IsEqual(other) <==> other.Plain? && other.resource == this
    {
      other == Plain(this)
    }
  }

  function AllocateLine(prefix: string, bytes: nat): (line: string)
    ensures |line| == |prefix| + 9 + |NatToString(bytes)| + 6
    ensures line[..|prefix|] == prefix && line[|prefix|..|prefix| + 9] == "allocate "
    ensures line[|prefix| + 9..|line| - 6] == NatToString(bytes) && line[|line| - 6..] == " Bytes"
  {
    prefix + "allocate " + NatToString(bytes) + " Bytes"
  }

  function DeallocateLine(prefix: string, bytes: nat): (line: string)
    ensures |line| == |prefix| + 11 + |NatToString(bytes)| + 6
    ensures line[..|prefix|] == prefix && line[|prefix|..|prefix| + 11] == "deallocate "
    ensures line[|prefix| + 11..|line| - 6] == NatToString(bytes) && line[|line| - 6..] == " Bytes"
  {
    prefix + "deallocate " + NatToString(bytes) + " Bytes"
  }

  class TrackingResource {
    const upstream: Upstream
    const prefix: string

    /** TrackingResource(): the process default resource, no prefix. */
    constructor Default(defaultResource: Upstream)
      ensures upstream == defaultResource && prefix == ""
    {
      upstream := defaultResource;
      prefix := "";
    }

    /** TrackingResource(p): the given prefix over the process default resource. */
    constructor WithPrefix(p: string, defaultResource: Upstream)
      ensures upstream == defaultResource && prefix == p
    {
      upstream := defaultResource;
      prefix := p;
    }

    /** TrackingResource(p, us): both the prefix and the upstream as given. */
    constructor WithUpstream(p: string, us: Upstream)
      ensures upstream == us && prefix == p
    {
      upstream := us;
      prefix := p;
    }

    /**
     * do_allocate: logs first, then forwards (bytes, align) and returns the
     * upstream's answer as it is; a bad_alloc leaves the line written.
     */
    method Allocate(bytes: nat, align: nat, log: OutputStream) returns (r: AllocResult)
      requires upstream.Valid() && IsPowerOfTwo(align)
      modifies log, upstream
      ensures upstream.Valid()
      ensures log.lines == old(log.lines) + [AllocateLine(prefix, bytes)]
      ensures old(upstream.capacity) < bytes ==> r == BadAlloc && unchanged(upstream)
      ensures bytes <= old(upstream.capacity) ==>
        && r == Allocated(old(upstream.nextAddress))
        && old(upstream.nextAddress) !in old(upstream.live)
        && upstream.live == old(upstream.live)[old(upstream.nextAddress) := Block(bytes, align)]
        && upstream.capacity == old(upstream.capacity) - bytes
    {
      log.WriteLine(AllocateLine(prefix, bytes));
      r := upstream.Allocate(bytes, align);
    }

    /** do_deallocate: logs first, then forwards the identical triple. */
    method Deallocate(ptr: nat, bytes: nat, align: nat, log: OutputStream)
      requires upstream.Valid()
      requires ptr in upstream.live && upstream.live[ptr] == Block(bytes, align)
      modifies log, upstream
      ensures upstream.Valid()
      ensures log.lines == old(log.lines) + [DeallocateLine(prefix, bytes)]
      ensures upstream.live == old(upstream.live) - {ptr}
      ensures upstream.capacity == old(upstream.capacity) + bytes
      ensures upstream.nextAddress == old(upstream.nextAddress)
    {
      log.WriteLine(DeallocateLine(prefix, bytes));
      upstream.Deallocate(ptr, bytes, align);
    }

    /**
     * do_is_equal as written: the same object, or a tracker with the same
     * prefix about which the upstream (not the other tracker's upstream) is
     * asked. Being a function, it writes nothing and changes nothing.
     */
    predicate IsEqual(other: ResourceRef)
      ensures other == Tracker(this) ==> IsEqual(other)
      ensures other.Plain? ==> !IsEqual(other)
      ensures other.Tracker? && other.tracker.prefix != prefix ==> !IsEqual(other)
      ensures other.Tracker? && other.tracker != this && other.tracker.prefix == prefix ==>
                (IsEqual(other) <==> upstream.IsEqual(other))
    {
      if other == Tracker(this) then true
      else other.Tracker? && other.tracker.prefix == prefix && upstream.IsEqual(other)
    }

    /** do_is_equal as its comment says it is meant: same prefix and equal upstreams. */
    predicate IsEqualIntended(other: ResourceRef)
      ensures other == Tracker(this) ==> IsEqualIntended(other)
      ensures other.Plain? ==> !IsEqualIntended(other)
      ensures other.Tracker? && other.tracker.prefix != prefix ==> !IsEqualIntended(other)
      ensures other.Tracker? && other.tracker != this && other.tracker.prefix == prefix ==>
                (IsEqualIntended(other) <==> upstream.IsEqual(Plain(other.tracker.upstream)))
    {
      if other == Tracker(this) then true
      else other.Tracker? && other.tracker.prefix == prefix
           && upstream.IsEqual(Plain(other.tracker.upstream))
    }
  }

  /** With an identity-comparing upstream, a tracker equals no tracker but itself. */
  lemma DistinctTrackersNeverEqual(a: TrackingResource, b: TrackingResource)
    requires a.prefix == b.prefix && a.upstream == b.upstream
    ensures a.IsEqual(Tracker(b)) <==> a == b
  {
    if a != b {
      assert !a.upstream.IsEqual(Tracker(b));
    }
  }

  /** The intended comparison: same prefix over the same upstream is equal; a different prefix is not. */
  lemma IntendedEqualSameUpstream(a: TrackingResource, b: TrackingResource)
    requires a.upstream == b.upstream
    ensures a.IsEqualIntended(Tracker(b)) <==> a.prefix == b.prefix
  {
    if a != b && a.prefix == b.prefix {
      assert a.upstream.IsEqual(Plain(b.upstream));
    }
  }

  /**
   * Allocating any block the upstream can serve and giving it straight back
   * logs the two lines and leaves the upstream's budget and live blocks as they were.
   */
  method AllocateThenDeallocate(t: TrackingResource, bytes: nat, align: nat, log: OutputStream) returns (r: AllocResult)
    requires t.upstream.Valid() && IsPowerOfTwo(align) && bytes <= t.upstream.capacity
    modifies log, t.upstream
    ensures t.upstream.Valid() && r == Allocated(old(t.upstream.nextAddress))
    ensures log.lines == old(log.lines) + [AllocateLine(t.prefix, bytes), DeallocateLine(t.prefix, bytes)]
    ensures t.upstream.live == old(t.upstream.live) && t.upstream.capacity == old(t.upstream.capacity)
  {
    r := t.Allocate(bytes, align, log);
    t.Deallocate(r.ptr, bytes, align, log);
  }

  /** The line a "pool: " tracker writes when it allocates a 64-byte block. */
  lemma PoolAllocateLine()
    ensures AllocateLine("pool: ", 64) == "pool: allocate 64 Bytes"
  {
    NatToStringAppend(6, 4);
  }

  /** The line a "pool: " tracker writes when it frees a 64-byte block. */
  lemma PoolDeallocateLine()
    ensures DeallocateLine("pool: ", 64) == "pool: deallocate 64 Bytes"
  {
    NatToStringAppend(6, 4);
  }

  /**
   * A tracker labelled "pool: " over the default resource: allocate(64, 8)
   * logs one line, yields an address, and deallocating the identical triple
   * logs one more line and gives the upstream back its budget and live set.
   */
  method AllocateDeallocateScenario() returns (log: seq<string>, roundTripNeutral: bool, gotAddress: bool)
    ensures log == ["pool: allocate 64 Bytes", "pool: deallocate 64 Bytes"]
    ensures gotAddress && roundTripNeutral
  {
    var defaultResource := new Upstream(1024);
    var err := new OutputStream();
    var tracker := new TrackingResource.WithPrefix("pool: ", defaultResource);
    var capacityBefore, nextBefore := defaultResource.capacity, defaultResource.nextAddress;
    var r := AllocateThenDeallocate(tracker, 64, 8, err);
    gotAddress := r.Allocated?;
    PoolAllocateLine();
    PoolDeallocateLine();
    roundTripNeutral := defaultResource.capacity == capacityBefore && r == Allocated(nextBefore);
    log := err.lines;
  }

  /**
   * Two trackers with the same prefix over the same upstream compare unequal
   * as written (and equal as intended); a third with another prefix is unequal either way.
   */
  method EqualityScenario() returns (sameLabel: bool, sameLabelIntended: bool, otherLabel: bool, itself: bool)
    ensures !sameLabel && sameLabelIntended && !otherLabel && itself
  {
    var us := new Upstream(0);
    var t1 := new TrackingResource.WithUpstream("pool: ", us);
    var t2 := new TrackingResource.WithUpstream("pool: ", us);
    var t3 := new TrackingResource.WithUpstream("other: ", us);
    DistinctTrackersNeverEqual(t1, t2);
    IntendedEqualSameUpstream(t1, t2);
    sameLabel := t1.IsEqual(Tracker(t2));
    sameLabelIntended := t1.IsEqualIntended(Tracker(t2));
    otherLabel := t1.IsEqual(Tracker(t3));
    itself := t1.IsEqual(Tracker(t1));
  }
}
