/**
 SharedMemBuffer: one buffer shared by all objects. A request asks for regions laid out one after another from the
 buffer's base, each announced through a pointer; when a larger request arrives the buffer is replaced and every pointer
 of every live request is set again.
 */
module SharedBuffer {

  /** A pointer variable of some object, holding an address. */
  class Pointer {
    var address: int
    constructor ()
      ensures address == 0
    {
      address := 0;
    }
  }

  datatype Request = Request(pointers: seq<Pointer>, sizes: seq<nat>)

  /** Sum of the first k sizes: where region k starts. */
  function Offset(sizes: seq<nat>, k: nat): nat
    requires k <= |sizes|
  {
    if k == 0 then 0 else Offset(sizes, k - 1) + sizes[k - 1]
  }

  function Total(sizes: seq<nat>): nat {
    Offset(sizes, |sizes|)
  }

  lemma {:induction false} OffsetGrows(sizes: seq<nat>, i: nat, j: nat)
    requires i < j <= |sizes|
    ensures Offset(sizes, i) + sizes[i] <= Offset(sizes, j)
  {
    if i + 1 < j {
      OffsetGrows(sizes, i, j - 1);
    }
  }

  /** The regions of one request do not overlap, and all lie below its total. */
  lemma RegionsDisjoint(sizes: seq<nat>, i: nat, j: nat)
    requires i < j < |sizes|
    ensures Offset(sizes, i) + sizes[i] <= Offset(sizes, j)
    ensures Offset(sizes, j) + sizes[j] <= Total(sizes)
  {
    OffsetGrows(sizes, i, j);
    OffsetGrows(sizes, j, |sizes|);
  }

  function Largest(totals: seq<nat>): nat {
    if totals == [] then 0
    else if totals[|totals| - 1] > Largest(totals[..|totals| - 1]) then totals[|totals| - 1]
    else Largest(totals[..|totals| - 1])
  }

  lemma {:induction false} LargestIsLargest(totals: seq<nat>)
    ensures forall i | 0 <= i < |totals| :: totals[i] <= Largest(totals)
    ensures Largest(totals) == 0 || Largest(totals) in totals
  {
    if totals != [] {
      var rest := totals[..|totals| - 1];
      LargestIsLargest(rest);
      forall i | 0 <= i < |totals| ensures totals[i] <= Largest(totals) {
        if i < |rest| {
          assert rest[i] == totals[i];
        }
      }
    }
  }

  method TotalSize(request: Request) returns (total: nat)
    ensures total == Total(request.sizes)
  {
    total := 0;
    for i := 0 to |request.sizes|
      invariant total == Offset(request.sizes, i)
    {
      total := total + request.sizes[i];
    }
  }

  /** Pointer k of the request holds the start of region k. */
  ghost predicate PlacedAt(request: Request, base: int, k: nat)
    requires k < |request.pointers| == |request.sizes|
    reads request.pointers[k]
  {
    request.pointers[k].address == base + Offset(request.sizes, k)
  }

  ghost predicate Placed(request: Request, base: int)
    reads request.pointers
  {
    && |request.pointers| == |request.sizes|
    && forall k | 0 <= k < |request.pointers| :: PlacedAt(request, base, k)
  }

  ghost predicate StartsAgree(request: Request, i: nat, j: nat)
    requires i < |request.pointers| == |request.sizes| && j < |request.pointers|
  {
    request.pointers[i] == request.pointers[j] ==> Offset(request.sizes, i) == Offset(request.sizes, j)
  }

  /** Whenever two regions of the request are announced through one pointer, they start at the same place. */
  ghost predicate SameStarts(request: Request)
    requires |request.pointers| == |request.sizes|
  {
    forall i, j | 0 <= i < |request.pointers| && 0 <= j < |request.pointers| :: StartsAgree(request, i, j)
  }

  /** The pointer holds the start of one of the first n regions announced through it. */
  ghost predicate HoldsOne(request: Request, base: int, n: nat, p: Pointer)
    requires n <= |request.pointers| == |request.sizes|
    reads request.pointers
  {
    exists k :: 0 <= k < n && request.pointers[k] == p && PlacedAt(request, base, k)
  }

  lemma PlacedExactly(request: Request, base: int)
    requires |request.pointers| == |request.sizes|
    requires forall k | 0 <= k < |request.pointers| ::
      HoldsOne(request, base, |request.pointers|, request.pointers[k])
    ensures Placed(request, base) <==> SameStarts(request)
  {
    if SameStarts(request) {
      forall k | 0 <= k < |request.pointers| ensures PlacedAt(request, base, k) {
        assert HoldsOne(request, base, |request.pointers|, request.pointers[k]);
        var l :| && 0 <= l < |request.pointers| && request.pointers[l] == request.pointers[k]
                 && PlacedAt(request, base, l);
        assert StartsAgree(request, k, l);
      }
    }
    if Placed(request, base) {
      forall i, j | 0 <= i < |request.pointers| && 0 <= j < |request.pointers| ensures StartsAgree(request, i, j) {
        assert PlacedAt(request, base, i) && PlacedAt(request, base, j);
      }
    }
  }

  /** One call of a stored function. */
  method StoreOne(request: Request, base: int, i: nat, offset: nat)
    requires i < |request.pointers| == |request.sizes| && offset == Offset(request.sizes, i)
    requires forall k | 0 <= k < i :: HoldsOne(request, base, i, request.pointers[k])
    modifies request.pointers[i]
    ensures forall k | 0 <= k < i + 1 :: HoldsOne(request, base, i + 1, request.pointers[k])
  {
    request.pointers[i].address := base + offset;
    assert PlacedAt(request, base, i);
    forall k | 0 <= k < i ensures HoldsOne(request, base, i + 1, request.pointers[k]) {
      if request.pointers[k] != request.pointers[i] {
        assert old(HoldsOne(request, base, i, request.pointers[k]));
        var l :| 0 <= l < i && request.pointers[l] == request.pointers[k] && old(PlacedAt(request, base, l));
        assert PlacedAt(request, base, l);
      }
    }
  }

  /** Every pointer holds the start of a region announced through it; all regions are placed exactly when no pointer
      announces two regions that start at different places. */
  method UpdateBasePtr(request: Request, base: int)
    requires |request.pointers| == |request.sizes|
    modifies request.pointers
    ensures Placed(request, base) <==> SameStarts(request)
    ensures forall k | 0 <= k < |request.pointers| ::
      HoldsOne(request, base, |request.pointers|, request.pointers[k])
  {
    var offset := 0;
    for i := 0 to |request.pointers|
      invariant offset == Offset(request.sizes, i)
      invariant forall k | 0 <= k < i :: HoldsOne(request, base, i, request.pointers[k])
    {
      StoreOne(request, base, i, offset);
      offset := offset + request.sizes[i];
    }
    PlacedExactly(request, base);
  }

  /** Where a pointer stands: its object, the request among the object's requests, and its place in the request. */
  datatype Site = Site(owner: int, request: nat, index: nat)

  type Table = map<int, seq<Request>>

  ghost predicate IsSite(requests: Table, x: Site) {
    && x.owner in requests && 0 <= x.request < |requests[x.owner]|
    && 0 <= x.index < |requests[x.owner][x.request].pointers|
  }

  ghost function At(requests: Table, x: Site): Pointer
    requires IsSite(requests, x)
  {
    requests[x.owner][x.request].pointers[x.index]
  }

  /** The pointers of the live objects. */
  ghost function Pointers(requests: Table): set<Pointer> {
    set owner, r, i | owner in requests && 0 <= r < |requests[owner]| && 0 <= i < |requests[owner][r].pointers| ::
      requests[owner][r].pointers[i]
  }

  lemma SiteIsLive(requests: Table, x: Site)
    requires IsSite(requests, x)
    ensures At(requests, x) in Pointers(requests)
  {
    assert requests[x.owner][x.request].pointers[x.index] == At(requests, x);
  }

  ghost predicate Formed(request: Request, totals: seq<nat>) {
    |request.pointers| == |request.sizes| && Total(request.sizes) in totals
  }

  ghost predicate AllFormed(requests: Table, totals: seq<nat>) {
    forall owner, r | owner in requests && 0 <= r < |requests[owner]| :: Formed(requests[owner][r], totals)
  }

  /** The start of the region at a site. */
  ghost function Start(requests: Table, x: Site): nat {
    if IsSite(requests, x) && x.index < |requests[x.owner][x.request].sizes|
    then Offset(requests[x.owner][x.request].sizes, x.index) else 0
  }

  ghost predicate SitesAgree(requests: Table, x: Site, y: Site) {
    IsSite(requests, x) && IsSite(requests, y) && At(requests, x) == At(requests, y)
    ==> Start(requests, x) == Start(requests, y)
  }

  /** No pointer announces two live regions that start at different places. */
  ghost predicate Agree(requests: Table) {
    forall x, y :: SitesAgree(requests, x, y)
  }

  /** The table with one more request of an object. */
  function Registered(requests: Table, owner: int, request: Request): Table {
    requests[owner := (if owner in requests then requests[owner] else []) + [request]]
  }

  function NewIndex(requests: Table, owner: int): nat {
    if owner in requests then |requests[owner]| else 0
  }

  /** The sites after a registration: those before, with the same pointer and start, and those of the request. */
  lemma RegisteredSite(requests: Table, owner: int, request: Request, x: Site)
    requires |request.pointers| == |request.sizes|
    ensures var requests' := Registered(requests, owner, request);
      if x.owner == owner && x.request == NewIndex(requests, owner) then
        && (IsSite(requests', x) <==> x.index < |request.pointers|)
        && (IsSite(requests', x) ==>
              At(requests', x) == request.pointers[x.index] && Start(requests', x) == Offset(request.sizes, x.index))
      else
        && (IsSite(requests', x) <==> IsSite(requests, x))
        && (IsSite(requests, x) ==>
              At(requests', x) == At(requests, x) && Start(requests', x) == Start(requests, x))
  {
  }

  /** Registering pointers that are new and pairwise different keeps the table in agreement. */
  lemma NewPointersAgree(requests: Table, owner: int, request: Request)
    requires Agree(requests) && |request.pointers| == |request.sizes|
    requires forall i, j | 0 <= i < j < |request.pointers| :: request.pointers[i] != request.pointers[j]
    requires forall i | 0 <= i < |request.pointers| :: request.pointers[i] !in Pointers(requests)
    ensures Agree(Registered(requests, owner, request))
  {
    var requests' := Registered(requests, owner, request);
    forall x, y ensures SitesAgree(requests', x, y) {
      RegisteredSite(requests, owner, request, x);
      RegisteredSite(requests, owner, request, y);
      assert SitesAgree(requests, x, y);
      if IsSite(requests, x) {
        SiteIsLive(requests, x);
      }
      if IsSite(requests, y) {
        SiteIsLive(requests, y);
      }
    }
  }

  lemma AgreeBefore(requests: Table, owner: int, request: Request)
    requires Agree(Registered(requests, owner, request)) && |request.pointers| == |request.sizes|
    ensures Agree(requests)
  {
    forall x, y ensures SitesAgree(requests, x, y) {
      RegisteredSite(requests, owner, request, x);
      RegisteredSite(requests, owner, request, y);
      assert SitesAgree(Registered(requests, owner, request), x, y);
    }
  }

  lemma FormedStays(requests: Table, totals: seq<nat>, owner: int, request: Request)
    requires AllFormed(requests, totals) && |request.pointers| == |request.sizes|
    ensures AllFormed(Registered(requests, owner, request), totals + [Total(request.sizes)])
  {
    var requests', totals' := Registered(requests, owner, request), totals + [Total(request.sizes)];
    forall o, r | o in requests' && 0 <= r < |requests'[o]| ensures Formed(requests'[o][r], totals') {
      if o in requests && r < |requests[o]| {
        assert Formed(requests[o][r], totals);
      }
    }
  }

  /** The pointer at the site holds the start of the site's region. */
  ghost predicate HomeAt(base: int, requests: Table, x: Site)
    requires IsSite(requests, x)
    reads At(requests, x)
  {
    At(requests, x).address == base + Start(requests, x)
  }

  /** Every live pointer holds the base plus the sum of the sizes before it. */
  ghost predicate Home(base: int, requests: Table)
    reads Pointers(requests)
  {
    forall x | IsSite(requests, x) :: At(requests, x) in Pointers(requests) && HomeAt(base, requests, x)
  }

  lemma HomeAgrees(base: int, requests: Table)
    requires Home(base, requests)
    ensures Agree(requests)
  {
    forall x, y ensures SitesAgree(requests, x, y) {
      if IsSite(requests, x) && IsSite(requests, y) && At(requests, x) == At(requests, y) {
        assert HomeAt(base, requests, x) && HomeAt(base, requests, y);
      }
    }
  }

  lemma HomeFrom(base: int, requests: Table)
    requires forall x | IsSite(requests, x) :: HomeAt(base, requests, x)
    ensures Home(base, requests)
  {
    forall x | IsSite(requests, x) ensures At(requests, x) in Pointers(requests) {
      SiteIsLive(requests, x);
    }
  }

  lemma HomeOnlyIfAgree(base: int, requests: Table)
    ensures Home(base, requests) ==> Agree(requests)
  {
    if Home(base, requests) {
      HomeAgrees(base, requests);
    }
  }

  lemma RegisteredFacts(requests: Table, totals: seq<nat>, owner: int, request: Request)
    requires AllFormed(requests, totals) && |request.pointers| == |request.sizes|
    ensures AllFormed(Registered(requests, owner, request), totals + [Total(request.sizes)])
    ensures Agree(Registered(requests, owner, request)) ==> Agree(requests)
  {
    FormedStays(requests, totals, owner, request);
    if Agree(Registered(requests, owner, request)) {
      AgreeBefore(requests, owner, request);
    }
  }

  /** A pointer of a request just set stands right at every site, when the sites agree. */
  lemma SetIsHome(base: int, requests: Table, owner: int, r: nat, x: Site)
    requires Agree(requests) && IsSite(requests, x) && owner in requests && r < |requests[owner]|
    requires var request := requests[owner][r];
      && |request.pointers| == |request.sizes| && At(requests, x) in request.pointers
      && HoldsOne(request, base, |request.pointers|, At(requests, x))
    ensures HomeAt(base, requests, x)
  {
    var request := requests[owner][r];
    var k :| 0 <= k < |request.pointers| && request.pointers[k] == At(requests, x) && PlacedAt(request, base, k);
    assert SitesAgree(requests, x, Site(owner, r, k));
  }

  // ----- a sequence of calls

  /** memory is what the allocator answers should the call have to grow the buffer. */
  datatype Call = AllocCall(owner: int, request: Request, memory: int) | DeallocCall(owner: int)

  /** The live requests after the first n calls. */
  ghost function TableAfter(requests: Table, calls: seq<Call>, n: nat): Table
    requires n <= |calls|
  {
    if n == 0 then requests
    else
      match calls[n - 1]
      case AllocCall(owner, request, _) => Registered(TableAfter(requests, calls, n - 1), owner, request)
      case DeallocCall(owner) => TableAfter(requests, calls, n - 1) - {owner}
  }

  ghost function TotalsAfter(totals: seq<nat>, calls: seq<Call>, n: nat): seq<nat>
    requires n <= |calls|
  {
    if n == 0 then totals
    else if calls[n - 1].AllocCall? then TotalsAfter(totals, calls, n - 1) + [Total(calls[n - 1].request.sizes)]
    else TotalsAfter(totals, calls, n - 1)
  }

  /** Call k asks for more than was ever asked for, and the allocator has no memory. */
  ghost predicate Starves(totals: seq<nat>, calls: seq<Call>, k: nat)
    requires k < |calls|
  {
    && calls[k].AllocCall? && calls[k].memory == 0
    && Total(calls[k].request.sizes) > Largest(TotalsAfter(totals, calls, k))
  }

  ghost predicate IsTarget(calls: seq<Call>, k: int, i: int) {
    0 <= k < |calls| && calls[k].AllocCall? && 0 <= i < |calls[k].request.pointers|
  }

  ghost function Target(calls: seq<Call>, k: int, i: int): Pointer
    requires IsTarget(calls, k, i)
  {
    calls[k].request.pointers[i]
  }

  /** The pointers the first n calls announce regions through. */
  ghost function Targets(calls: seq<Call>, n: nat): set<Pointer>
    requires n <= |calls|
  {
    set k, i | 0 <= k < n && calls[k].AllocCall? && 0 <= i < |calls[k].request.pointers| ::
      calls[k].request.pointers[i]
  }

  /** Every region has a size, and no pointer is announced twice or registered already. */
  ghost predicate NewPointers(requests: Table, calls: seq<Call>) {
    && (forall k | 0 <= k < |calls| && calls[k].AllocCall? ::
          |calls[k].request.pointers| == |calls[k].request.sizes|)
    && (forall k, i | IsTarget(calls, k, i) :: Target(calls, k, i) !in Pointers(requests))
    && (forall k, i, l, j | IsTarget(calls, k, i) && IsTarget(calls, l, j) && (k != l || i != j) ::
          Target(calls, k, i) != Target(calls, l, j))
  }

  lemma TargetsGrow(calls: seq<Call>, k: nat)
    requires k < |calls|
    ensures Targets(calls, k) <= Targets(calls, k + 1) <= Targets(calls, |calls|)
    ensures calls[k].AllocCall? ==> forall p | p in calls[k].request.pointers :: p in Targets(calls, k + 1)
  {
    if calls[k].AllocCall? {
      forall p | p in calls[k].request.pointers ensures p in Targets(calls, k + 1) {
        var i :| 0 <= i < |calls[k].request.pointers| && calls[k].request.pointers[i] == p;
        assert calls[k].request.pointers[i] in Targets(calls, k + 1);
      }
    }
  }

  /** The pointers of call k are new when its turn comes. */
  lemma TurnIsNew(before: Table, requests: Table, calls: seq<Call>, k: nat)
    requires NewPointers(before, calls) && k < |calls| && calls[k].AllocCall?
    requires Pointers(requests) <= Pointers(before) + Targets(calls, k)
    ensures var request := calls[k].request;
      && |request.pointers| == |request.sizes|
      && (forall i, j | 0 <= i < j < |request.pointers| :: request.pointers[i] != request.pointers[j])
      && (forall i | 0 <= i < |request.pointers| :: request.pointers[i] !in Pointers(requests))
  {
    var request := calls[k].request;
    forall i | 0 <= i < |request.pointers| ensures request.pointers[i] !in Pointers(requests) {
      assert IsTarget(calls, k, i) && Target(calls, k, i) == request.pointers[i];
      if request.pointers[i] in Targets(calls, k) {
        var l, j :| 0 <= l < k && calls[l].AllocCall? && 0 <= j < |calls[l].request.pointers|
                    && calls[l].request.pointers[j] == request.pointers[i];
        assert IsTarget(calls, l, j) && Target(calls, l, j) == Target(calls, k, i);
      }
    }
    forall i, j | 0 <= i < j < |request.pointers| ensures request.pointers[i] != request.pointers[j] {
      assert IsTarget(calls, k, i) && IsTarget(calls, k, j) && Target(calls, k, i) != Target(calls, k, j);
    }
  }

  lemma RegisteredPointers(requests: Table, owner: int, request: Request)
    requires |request.pointers| == |request.sizes|
    ensures forall p | p in Pointers(Registered(requests, owner, request)) ::
      p in Pointers(requests) || p in request.pointers
  {
    var requests' := Registered(requests, owner, request);
    forall p | p in Pointers(requests') ensures p in Pointers(requests) || p in request.pointers {
      var o, r, i :| o in requests' && 0 <= r < |requests'[o]| && 0 <= i < |requests'[o][r].pointers|
                     && requests'[o][r].pointers[i] == p;
      RegisteredSite(requests, owner, request, Site(o, r, i));
      if IsSite(requests, Site(o, r, i)) {
        SiteIsLive(requests, Site(o, r, i));
      }
    }
  }

  lemma RemovedAgrees(requests: Table, owner: int)
    ensures Agree(requests) ==> Agree(requests - {owner})
    ensures Pointers(requests - {owner}) <= Pointers(requests)
  {
    var rest := requests - {owner};
    if Agree(requests) {
      forall x, y ensures SitesAgree(rest, x, y) {
        assert SitesAgree(requests, x, y);
      }
    }
    forall p | p in Pointers(rest) ensures p in Pointers(requests) {
      var o, r, i :| o in rest && 0 <= r < |rest[o]| && 0 <= i < |rest[o][r].pointers| && rest[o][r].pointers[i] == p;
      SiteIsLive(requests, Site(o, r, i));
    }
  }

  class SharedMemBuffer {
    var buffer: int
    var size: nat
    var requests: Table

    ghost var totals: seq<nat> // the totals asked for so far

    /** The capacity is the largest total asked for, and every live request was asked for. */
    ghost predicate Valid()
      reads this
    {
      AllFormed(requests, totals) && size == Largest(totals)
    }

    constructor ()
      ensures Valid() && totals == [] && requests == map[] && Home(buffer, requests)
    {
      buffer, size, requests := 0, 0, map[];
      totals := [];
    }

    /** One request's turn: pointers at home elsewhere stay so, when the sites agree. */
    method RebaseOne(owner: int, r: nat)
      requires AllFormed(requests, totals) && owner in requests && r < |requests[owner]|
      modifies requests[owner][r].pointers
      ensures Agree(requests) ==> forall x | IsSite(requests, x) ::
        (x.owner == owner && x.request == r) || old(HomeAt(buffer, requests, x)) ==> HomeAt(buffer, requests, x)
    {
      var request := requests[owner][r];
      assert Formed(request, totals);
      UpdateBasePtr(request, buffer);
      if Agree(requests) {
        forall x | IsSite(requests, x) && ((x.owner == owner && x.request == r) || old(HomeAt(buffer, requests, x)))
          ensures HomeAt(buffer, requests, x)
        {
          if At(requests, x) in request.pointers {
            var k :| 0 <= k < |request.pointers| && request.pointers[k] == At(requests, x);
            assert HoldsOne(request, buffer, |request.pointers|, request.pointers[k]);
            SetIsHome(buffer, requests, owner, r, x);
          }
        }
      }
    }

    method RebaseOwner(owner: int)
      requires AllFormed(requests, totals) && owner in requests
      modifies Pointers(requests)
      ensures Agree(requests) ==> forall x | IsSite(requests, x) ::
        x.owner == owner || old(HomeAt(buffer, requests, x)) ==> HomeAt(buffer, requests, x)
    {
      for r := 0 to |requests[owner]|
        invariant Agree(requests) ==> forall x | IsSite(requests, x) ::
          (x.owner == owner && x.request < r) || old(HomeAt(buffer, requests, x)) ==> HomeAt(buffer, requests, x)
      {
        forall k | 0 <= k < |requests[owner][r].pointers| ensures requests[owner][r].pointers[k] in Pointers(requests) {
          SiteIsLive(requests, Site(owner, r, k));
        }
        RebaseOne(owner, r);
      }
    }

    /** The loops over all live requests; the order of the owners does not matter when the sites agree. */
    method Rebase()
      requires AllFormed(requests, totals)
      modifies Pointers(requests)
      ensures Home(buffer, requests) <==> Agree(requests)
    {
      var owners := requests.Keys;
      while exists owner :: owner in owners
        invariant owners <= requests.Keys
        invariant Agree(requests) ==>
          forall x | IsSite(requests, x) && x.owner !in owners :: HomeAt(buffer, requests, x)
        decreases |owners|
      {
        var owner :| owner in owners;
        RebaseOwner(owner);
        owners := owners - {owner};
      }
      if Agree(requests) {
        HomeFrom(buffer, requests);
      }
      if Home(buffer, requests) {
        HomeAgrees(buffer, requests);
      }
    }

    /** A larger buffer: every live pointer is set again. */
    method Replace(total: nat, memory: int)
      requires AllFormed(requests, totals)
      modifies this`buffer, this`size, Pointers(requests)
      ensures buffer == memory && size == total && (Home(buffer, requests) <==> Agree(requests))
    {
      buffer, size := memory, total;
      Rebase();
    }

    /** The last two lines of alloc: set the request's pointers and register it. */
    method Place(owner: int, request: Request)
      requires |request.pointers| == |request.sizes|
      modifies this`requests, request.pointers
      ensures requests == Registered(old(requests), owner, request)
      ensures Placed(request, buffer) <==> SameStarts(request)
      ensures old(Home(buffer, requests)) && Agree(requests) ==> Home(buffer, requests)
    {
      UpdateBasePtr(request, buffer);
      ghost var before := requests;
      requests := Registered(requests, owner, request);
      if old(Home(buffer, requests)) && Agree(requests) {
        forall x | IsSite(requests, x) ensures HomeAt(buffer, requests, x) {
          RegisteredSite(before, owner, request, x);
          if At(requests, x) in request.pointers {
            var k :| 0 <= k < |request.pointers| && request.pointers[k] == At(requests, x);
            assert HoldsOne(request, buffer, |request.pointers|, request.pointers[k]);
            SetIsHome(buffer, requests, owner, NewIndex(before, owner), x);
          } else {
            assert old(HomeAt(buffer, requests, x));
          }
        }
        HomeFrom(buffer, requests);
      }
    }

    /** The end of alloc; it keeps the live pointers right if they were whenever they could be. */
    method Install(owner: int, request: Request)
      requires AllFormed(requests, totals) && |request.pointers| == |request.sizes|
      modifies this`requests, this`totals, request.pointers
      ensures requests == Registered(old(requests), owner, request) && totals == old(totals) + [Total(request.sizes)]
      ensures AllFormed(requests, totals) && (Placed(request, buffer) <==> SameStarts(request))
      ensures (Agree(old(requests)) ==> old(Home(buffer, requests))) ==> (Home(buffer, requests) <==> Agree(requests))
    {
      RegisteredFacts(requests, totals, owner, request);
      Place(owner, request);
      totals := totals + [Total(request.sizes)];
      HomeOnlyIfAgree(buffer, requests);
    }

    /** memory is what the allocator returned, 0 on failure; then the process exits. Afterwards every live pointer is
        right exactly when no pointer announces two regions with different starts; unless the buffer grew, this builds
        on the pointers having been right before. */
    method Alloc(owner: int, request: Request, memory: int) returns (exited: bool)
      requires Valid() && |request.pointers| == |request.sizes|
      modifies this, Pointers(requests), request.pointers
      ensures exited <==> Total(request.sizes) > old(size) && memory == 0
      ensures !exited ==> Valid() && totals == old(totals) + [Total(request.sizes)]
      ensures !exited ==> buffer == if Total(request.sizes) > old(size) then memory else old(buffer)
      ensures !exited ==> requests == Registered(old(requests), owner, request)
      ensures !exited ==> (Placed(request, buffer) <==> SameStarts(request))
      ensures !exited && (Total(request.sizes) > old(size) || old(Home(buffer, requests))) ==>
        (Home(buffer, requests) <==> Agree(requests))
    {
      hide Placed, SameStarts, Home, Agree, Registered;
      var total := TotalSize(request);
      if total > size {
        if memory == 0 {
          return true;
        }
        Replace(total, memory);
      }
      Install(owner, request);
      return false;
    }

    method Dealloc(owner: int)
      requires Valid()
      modifies this
      ensures Valid() && requests == old(requests) - {owner}
      ensures buffer == old(buffer) && size == old(size) && totals == old(totals)
      ensures old(Home(buffer, requests)) ==> Home(buffer, requests)
    {
      ghost var before := requests;
      requests := requests - {owner};
      if Home(buffer, before) {
        forall x | IsSite(requests, x) ensures HomeAt(buffer, requests, x) {
          assert IsSite(before, x) && HomeAt(buffer, before, x);
        }
        HomeFrom(buffer, requests);
      }
    }

    /** One call of a sequence. */
    method ServeOne(call: Call) returns (exited: bool)
      requires Valid() && Agree(requests) && Home(buffer, requests)
      requires call.AllocCall? ==> var request := call.request;
        && |request.pointers| == |request.sizes|
        && (forall i, j | 0 <= i < j < |request.pointers| :: request.pointers[i] != request.pointers[j])
        && (forall i | 0 <= i < |request.pointers| :: request.pointers[i] !in Pointers(requests))
      modifies this, Pointers(requests), if call.AllocCall? then call.request.pointers else []
      ensures exited <==> call.AllocCall? && call.memory == 0 && Total(call.request.sizes) > Largest(old(totals))
      ensures !exited ==> Valid() && Agree(requests) && Home(buffer, requests)
      ensures !exited ==> requests == if call.AllocCall? then Registered(old(requests), call.owner, call.request)
                                      else old(requests) - {call.owner}
      ensures !exited ==> totals == if call.AllocCall? then old(totals) + [Total(call.request.sizes)] else old(totals)
      ensures !exited ==> forall p | p in Pointers(requests) ::
        p in old(Pointers(requests)) || (call.AllocCall? && p in call.request.pointers)
    {
      hide Home, Agree, Registered;
      match call {
        case AllocCall(owner, request, memory) =>
          NewPointersAgree(requests, owner, request);
          RegisteredPointers(requests, owner, request);
          exited := Alloc(owner, request, memory);
        case DeallocCall(owner) =>
          RemovedAgrees(requests, owner);
          Dealloc(owner);
          exited := false;
      }
    }

    /** Any sequence of calls that announces new pointers: the process exits exactly when some call starves; otherwise
        the capacity is the largest total ever asked for and every live pointer is right. */
    method Serve(calls: seq<Call>) returns (exited: bool)
      requires Valid() && Agree(requests) && Home(buffer, requests) && NewPointers(requests, calls)
      modifies this, Pointers(requests), Targets(calls, |calls|)
      ensures exited <==> exists k :: 0 <= k < |calls| && Starves(old(totals), calls, k)
      ensures !exited ==> Valid() && Agree(requests) && Home(buffer, requests)
      ensures !exited ==> requests == TableAfter(old(requests), calls, |calls|)
      ensures !exited ==> totals == TotalsAfter(old(totals), calls, |calls|) && size == Largest(totals)
    {
      hide Home, Agree, NewPointers;
      for k := 0 to |calls|
        invariant Valid() && Agree(requests) && Home(buffer, requests)
        invariant requests == TableAfter(old(requests), calls, k) && totals == TotalsAfter(old(totals), calls, k)
        invariant Pointers(requests) <= old(Pointers(requests)) + Targets(calls, k)
        invariant forall l | 0 <= l < k :: !Starves(old(totals), calls, l)
      {
        TargetsGrow(calls, k);
        if calls[k].AllocCall? {
          TurnIsNew(old(requests), requests, calls, k);
        }
        exited := ServeOne(calls[k]);
        if exited {
          assert Starves(old(totals), calls, k);
          return;
        }
      }
      return false;
    }

    /** A live pointer holds the base plus the sum of the sizes before it, and its whole region lies in the buffer. */
    lemma LiveRegion(owner: int, r: nat, i: nat)
      requires Valid() && Home(buffer, requests) && IsSite(requests, Site(owner, r, i))
      ensures var request := requests[owner][r];
        && i < |request.sizes|
        && request.pointers[i].address == buffer + Offset(request.sizes, i)
        && Offset(request.sizes, i) + request.sizes[i] <= size
    {
      var request := requests[owner][r];
      assert Formed(request, totals) && HomeAt(buffer, requests, Site(owner, r, i));
      OffsetGrows(request.sizes, i, |request.sizes|);
      LargestIsLargest(totals);
    }
  }

  /** Two objects announcing regions with different starts through pointer q: it is wrong for one of them, wherever the
      buffer lies. */
  lemma RegisteredTwice(p: Pointer, q: Pointer, base: int)
    ensures var first, second := Request([p, q], [1, 1]), Request([q], [1]);
      !Home(base, Registered(Registered(map[], 1, first), 2, second))
  {
    var requests := Registered(Registered(map[], 1, Request([p, q], [1, 1])), 2, Request([q], [1]));
    assert Offset([1, 1], 1) == Offset([1, 1], 0) + 1;
    assert !SitesAgree(requests, Site(1, 0, 1), Site(2, 0, 0));
    HomeOnlyIfAgree(base, requests);
  }
}
