/** Exactly when the allocator grants or refreshes a lease, and what the lease then carries. */
module EgressAcceptance {
  import opened Results
  import opened Orders
  import opened Sorting
  import opened EgressPrefixes
  import opened EgressPools
  import opened EgressAllocation
  import opened EgressSafety

  /** The addresses among the first `n` candidates that nobody has reserved. */
  ghost function Free(prefixes: seq<Prefix>, reserved: set<Ip>, n: nat): set<Ip>
    requires AllCanonical(prefixes)
  {
    set k | 0 <= k < n && Nth(prefixes, k).Some? && Nth(prefixes, k).value !in reserved :: Nth(prefixes, k).value
  }

  lemma {:induction false} ScanTakesFree(prefixes: seq<Prefix>, reserved: set<Ip>, n: nat)
    requires AllCanonical(prefixes)
    ensures var found := Scan(prefixes, reserved, 0, n);
      && (found.None? ==> Free(prefixes, reserved, n) == {})
      && (found.Some? ==> found.value in Free(prefixes, reserved, n)
                          && Free(prefixes, reserved + {found.value}, n) == Free(prefixes, reserved, n) - {found.value})
  {
    hide Nth, Canonical, CandidateCount, Scan;
    ScanFindsFirst(prefixes, reserved, 0, n);
    var found := Scan(prefixes, reserved, 0, n);
    if found.Some? {
      var k :| 0 <= k < n && FirstFree(prefixes, reserved, 0, k, found.value);
    }
  }

  /** A search for `n` addresses succeeds exactly when the scan reaches `n` free ones. */
  lemma {:induction false} TakeManyExactly(prefixes: seq<Prefix>, n: nat, reserved: set<Ip>)
    requires AllCanonical(prefixes)
    ensures TakeMany(prefixes, n, reserved).Some? <==> |Free(prefixes, reserved, MAX_SCAN)| >= n
    decreases n
  {
    hide Nth, Canonical, Free, Scan;
    if n > 0 {
      ScanTakesFree(prefixes, reserved, MAX_SCAN);
      var found := Scan(prefixes, reserved, 0, MAX_SCAN);
      if found.Some? { TakeManyExactly(prefixes, n - 1, reserved + {found.value}); }
    }
  }

  lemma {:induction false} NthFamily(prefixes: seq<Prefix>, k: nat, family: Family)
    requires AllCanonical(prefixes) && (forall p :: p in prefixes ==> p.address.Family() == family) && Nth(prefixes, k).Some?
    ensures Nth(prefixes, k).value.Family() == family
    decreases |prefixes|
  {
    hide Canonical, CandidateCount, Usable;
    if k < CandidateCount(prefixes[0]) {
      CandidateIsValid(prefixes[0], k);
      UsableFamily(prefixes[0], Candidate(prefixes[0], k).value);
    } else {
      NthFamily(prefixes[1..], k - CandidateCount(prefixes[0]), family);
    }
  }

  /** Reservations of another family do not matter. */
  lemma {:induction false} FreeOfFamily(prefixes: seq<Prefix>, reserved: set<Ip>, others: set<Ip>, n: nat, family: Family)
    requires AllCanonical(prefixes) && (forall p :: p in prefixes ==> p.address.Family() == family)
    requires forall ip :: ip in others ==> ip.Family() != family
    ensures Free(prefixes, reserved + others, n) == Free(prefixes, reserved, n)
  {
    hide Nth, Canonical;
    forall k: nat | Nth(prefixes, k).Some? ensures Nth(prefixes, k).value !in others { NthFamily(prefixes, k, family); }
  }

  /** The prefixes of one family are exactly those of the list, in its order. */
  lemma {:induction false} FamilyPrefixesAll(prefixes: seq<Prefix>, family: Family)
    ensures forall p :: p in FamilyPrefixes(prefixes, family) <==> p in prefixes && p.address.Family() == family
    decreases |prefixes|
  {
    if prefixes != [] {
      FamilyPrefixesAll(prefixes[1..], family);
      assert prefixes == [prefixes[0]] + prefixes[1..];
    }
  }

  lemma {:induction false} TakeOneFamily(pool: Pool, f: Family, perFamily: nat, reserved: set<Ip>)
    requires AllCanonical(pool.prefixes)
    ensures TakeFamilies(pool, [f], perFamily, reserved).Some? <==> TakeMany(FamilyPrefixes(pool.prefixes, f), perFamily, reserved).Some?
  {
    hide TakeMany, FamilyPrefixes, Canonical;
    assert [f][1..] == [];
  }

  lemma {:induction false} TakeTwoFamilies(pool: Pool, a: Family, b: Family, perFamily: nat, reserved: set<Ip>)
    requires AllCanonical(pool.prefixes)
    ensures TakeFamilies(pool, [a, b], perFamily, reserved).Some? <==>
      var first := TakeMany(FamilyPrefixes(pool.prefixes, a), perFamily, reserved);
      first.Some? && TakeMany(FamilyPrefixes(pool.prefixes, b), perFamily, reserved + Elements(first.value)).Some?
  {
    hide TakeMany, FamilyPrefixes, Canonical;
    var first := TakeMany(FamilyPrefixes(pool.prefixes, a), perFamily, reserved);
    assert [a, b][1..] == [b];
    if first.Some? { TakeOneFamily(pool, b, perFamily, reserved + Elements(first.value)); }
  }

  /** The addresses of a family a pool can still hand out within one scan. */
  ghost function Available(s: State, pool: Pool, family: Family): set<Ip>
    requires AllCanonical(pool.prefixes)
  {
    Free(FamilyPrefixes(pool.prefixes, family), s.owners.Keys, MAX_SCAN)
  }
  lemma {:induction false} TakeFamiliesExactly(s: State, pool: Pool, families: seq<Family>, perFamily: nat)
    requires AllCanonical(pool.prefixes) && families in {[Ipv4], [Ipv6], [Ipv4, Ipv6]}
    ensures TakeFamilies(pool, families, perFamily, s.owners.Keys).Some? <==>
      forall f :: f in families ==> |Available(s, pool, f)| >= perFamily
  {
    hide TakeMany, TakeFamilies, Free, Canonical, FamilyPrefixes;
    var reserved, a := s.owners.Keys, families[0];
    var first := FamilyPrefixes(pool.prefixes, a);
    TakeManyExactly(first, perFamily, reserved);
    assert |Available(s, pool, a)| >= perFamily <==> TakeMany(first, perFamily, reserved).Some?;
    if |families| == 1 {
      assert families == [a] && forall f :: f in families <==> f == a;
      TakeOneFamily(pool, a, perFamily, reserved);
    } else {
      assert forall f :: f in families <==> f == Ipv4 || f == Ipv6;
      TakeTwoFamilies(pool, Ipv4, Ipv6, perFamily, reserved);
      if TakeMany(first, perFamily, reserved).Some? {
        var second, taken := FamilyPrefixes(pool.prefixes, Ipv6), TakeMany(first, perFamily, reserved).value;
        TakeManyIsFresh(first, perFamily, reserved, Ipv4);
        TakeManyExactly(second, perFamily, reserved + Elements(taken));
        FreeOfFamily(second, reserved, Elements(taken), MAX_SCAN, Ipv6);
      }
    }
  }

  /** A request that asks for something: a named pool and families, or distinct real addresses. */
  predicate WellFormed(request: AddressRequest) {
    match request
    case FromPool(name, families, perFamily) => ValidName(name) && families != [] && 1 <= perFamily <= MAX_ADDRESSES
    case Explicit(addresses) => 0 < |addresses| <= MAX_ADDRESSES && Distinct(addresses) && forall ip :: ip in addresses ==> ip.value != 0
  }

  /** Two requests ask for the same, whatever the order they list it in. */
  predicate SameRequest(a: AddressRequest, b: AddressRequest) {
    match a
    case FromPool(name, families, perFamily) =>
      b.FromPool? && b.name == name && b.perFamily == perFamily && forall f :: f in families <==> f in b.families
    case Explicit(addresses) => b.Explicit? && multiset(addresses) == multiset(b.addresses)
  }

  lemma {:induction false} NormalExactly(request: AddressRequest)
    ensures NormalRequest(request).Some? <==> WellFormed(request)
    ensures NormalRequest(request).Some? ==> SameRequest(NormalRequest(request).value, request)
  {
    if NormalRequest(request).Some? { NormalRequestIsNormal(request); }
    if request.Explicit? {
      hide Sort, IpLess;
      IpOrder();
      SortSorts(request.addresses, IpLess);
      var sorted := Sort(request.addresses, IpLess);
      SameMembers(sorted, request.addresses);
      if NormalRequest(request).Some? {
        AscendingDistinct(sorted);
        DistinctStays(sorted, request.addresses);
      }
      if WellFormed(request) {
        DistinctStays(request.addresses, sorted);
        assert |sorted| == |multiset(sorted)| == |request.addresses|;
      }
    }
  }

  lemma {:induction false} AscendingDistinct(addresses: seq<Ip>)
    requires StrictlyAscending(addresses)
    ensures Distinct(addresses)
  {
    hide IpLess;
    IpOrder();
    forall i, j | 0 <= i < j < |addresses| ensures addresses[i] != addresses[j] { LaterIsLarger(addresses, i, j); }
  }

  lemma {:induction false} LaterIsLarger(addresses: seq<Ip>, i: nat, j: nat)
    requires StrictlyAscending(addresses) && i < j < |addresses|
    ensures IpLess(addresses[i], addresses[j])
    decreases j
  {
    IpOrder();
    hide IpLess;
    if i < j - 1 { LaterIsLarger(addresses, i, j - 1); }
  }

  /** Requests that ask for the same have the same normal form. */
  lemma {:induction false} SameNormal(a: AddressRequest, b: AddressRequest)
    requires NormalRequest(a).Some? && NormalRequest(b).Some?
    ensures NormalRequest(a) == NormalRequest(b) <==> SameRequest(a, b)
  {
    NormalExactly(a);
    NormalExactly(b);
    if SameRequest(a, b) && a.Explicit? {
      hide IpLess, Sort;
      IpOrder();
      SortSorts(a.addresses, IpLess);
      SortSorts(b.addresses, IpLess);
      TotalHasNoTies(Sort(a.addresses, IpLess), IpLess);
      SortedUnique(Sort(a.addresses, IpLess), Sort(b.addresses, IpLess), IpLess);
    }
  }

  /** Who is to supply the addresses. */
  predicate ProviderFits(s: State, request: Request) {
    match request.intent.addresses
    case FromPool(name, _, _) => request.provider.None? && name in s.pools
    case Explicit(_) => request.provider.Some? && ValidProvider(request.provider.value)
  }

  /** What can be asked of a held lease: the same addresses of the same provider, by a strictly
      later intent, or by the very intent it carries. */
  predicate RefreshFits(s: State, held: Lease, request: Request) {
    && SameRequest(held.intent.addresses, request.intent.addresses)
    && (request.intent.addresses.Explicit? ==> request.provider == Some(held.provider))
    && (if request.epoch == held.intentEpoch && request.revision == held.intentRevision then request.intent.policy == held.intent.policy
        else (held.intentEpoch < request.epoch || (held.intentEpoch == request.epoch && held.intentRevision < request.revision)) && s.revision < U64_MAX)
  }

  /** What a new owner needs: room, counters that can grow, and addresses nobody holds. */
  ghost predicate GrantFits(s: State, request: Request)
    requires forall n :: n in s.pools ==> AllCanonical(s.pools[n].prefixes)
  {
    && |s.leases| < MAX_INTENTS && s.revision < U64_MAX && s.lastEpoch < U64_MAX
    && match request.intent.addresses
       case Explicit(addresses) => forall ip, o :: ip in addresses && o in s.leases ==> ip !in s.leases[o].addresses
       case FromPool(name, families, perFamily) =>
         name in s.pools && forall f :: f in families ==> |Available(s, s.pools[name], f)| >= perFamily
  }

  ghost predicate Acceptable(s: State, request: Request)
    requires forall n :: n in s.pools ==> AllCanonical(s.pools[n].prefixes)
  {
    && request.epoch != 0 && request.revision != 0 && ValidOwner(request.intent.owner) && WellFormed(request.intent.addresses)
    && ProviderFits(s, request)
    && if request.intent.owner in s.leases then RefreshFits(s, s.leases[request.intent.owner], request) else GrantFits(s, request)
  }

  lemma {:induction false} GrantExactly(s: State, request: Request, normal: Request)
    requires Valid(s) && (forall n :: n in s.pools ==> AllCanonical(s.pools[n].prefixes))
    requires NormalRequest(request.intent.addresses).Some? && normal == request.(intent := request.intent.(addresses := NormalRequest(request.intent.addresses).value))
    ensures PlanAddresses(s, normal).Ok? && |s.leases| < MAX_INTENTS && s.revision < U64_MAX && s.lastEpoch < U64_MAX <==> GrantFits(s, request)
  {
    hide Canonical, PoolSet, LeasesValid, EpochsDiffer, NormalRequest, TakeFamilies, Available, Sort;
    NormalRequestIsNormal(request.intent.addresses);
    match normal.intent.addresses
    case Explicit(addresses) =>
      SameMembers(addresses, request.intent.addresses.addresses);
      HeldByOwner(s);
    case FromPool(name, families, perFamily) =>
      if name in s.pools { TakeFamiliesExactly(s, s.pools[name], families, perFamily); }
  }

  lemma {:induction false} HeldByOwner(s: State)
    requires Valid(s)
    ensures forall ip :: ip in s.owners <==> exists o :: o in s.leases && ip in s.leases[o].addresses
  {
    hide PoolSet, LeasesValid, EpochsDiffer;
  }

  lemma {:induction false} RefreshExactly(s: State, request: Request, normal: Request)
    requires Valid(s) && request.intent.owner in s.leases && ProviderFits(s, request) && request.epoch != 0 && request.revision != 0
    requires NormalRequest(request.intent.addresses).Some? && normal == request.(intent := request.intent.(addresses := NormalRequest(request.intent.addresses).value))
    requires ProviderFor(s, normal).Ok?
    ensures Refresh(s, s.leases[request.intent.owner], normal, ProviderFor(s, normal).value).Ok? <==> RefreshFits(s, s.leases[request.intent.owner], request)
  {
    hide PoolSet, Inverse, EpochsDiffer, NormalRequest, StrictlyAscending, CountFamily, Usable, ValidProvider, SameRequest;
    var held := s.leases[request.intent.owner];
    assert LeaseValid(s, request.intent.owner);
    NormalRequestIsNormal(request.intent.addresses);
    assert NormalRequest(held.intent.addresses) == Some(held.intent.addresses);
    SameNormal(held.intent.addresses, request.intent.addresses);
  }

  /** A call is served exactly when the request is well formed, names a provider as its kind
      demands, and either fits the lease its owner holds or can be granted anew. */
  lemma {:induction false} AllocateExactly(s: State, request: Request)
    requires Valid(s)
    ensures forall n :: n in s.pools ==> AllCanonical(s.pools[n].prefixes)
    ensures Allocated(s, request).Ok? <==> Acceptable(s, request)
  {
    hide Valid, Canonical, NormalRequest, PlanAddresses, Refresh, GrantFits, RefreshFits, WellFormed, ValidOwner, ValidProvider, SameRequest;
    AllocateKeepsValid(s, request);
    LeaseBound(s);
    NormalExactly(request.intent.addresses);
    if NormalRequest(request.intent.addresses).Some? {
      var normal := request.(intent := request.intent.(addresses := NormalRequest(request.intent.addresses).value));
      NormalRequestIsNormal(request.intent.addresses);
      CountersFit(s);
      GrantExactly(s, request, normal);
      if request.intent.owner in s.leases && ProviderFits(s, request) && request.epoch != 0 && request.revision != 0 {
        RefreshExactly(s, request, normal);
      }
    }
  }

  lemma {:induction false} CountersFit(s: State)
    requires Valid(s)
    ensures s.revision <= U64_MAX && s.lastEpoch <= U64_MAX
  {
  }

  /** What a served call returns: a lease for what was asked, under the request's epoch and
      revision, filed under its owner while every other lease stays. A new lease gets the next
      epoch and revision and addresses nobody held; a held one keeps epoch, addresses, pool and
      provider. */
  lemma {:induction false} AllocationCarriesRequest(s: State, request: Request)
    requires Valid(s)
    ensures forall n :: n in s.pools ==> AllCanonical(s.pools[n].prefixes)
    ensures Allocated(s, request).Ok? ==>
      var (n, lease) := Allocated(s, request).value; var owner := request.intent.owner;
      && lease.intent.owner == owner && lease.intent.policy == request.intent.policy
      && SameRequest(lease.intent.addresses, request.intent.addresses) && NormalRequest(lease.intent.addresses) == Some(lease.intent.addresses)
      && lease.intentEpoch == request.epoch && lease.intentRevision == request.revision
      && n.leases == s.leases[owner := lease] && n.pools == s.pools
      && (request.intent.addresses.Explicit? ==> Some(lease.provider) == request.provider)
      && (owner !in s.leases ==> lease.epoch == n.lastEpoch == s.lastEpoch + 1 && lease.revision == n.revision == s.revision + 1
                                 && forall ip, o :: ip in lease.addresses && o in s.leases ==> ip !in s.leases[o].addresses)
      && (owner in s.leases ==>
            var held := s.leases[owner];
            && lease.epoch == held.epoch && lease.addresses == held.addresses && lease.pool == held.pool && lease.provider == held.provider
            && n.owners == s.owners && n.lastEpoch == s.lastEpoch
            && ((lease == held && n == s) || (lease.revision == n.revision == s.revision + 1)))
  {
    hide Valid, Canonical, NormalRequest, PlanAddresses, ValidOwner, ValidProvider, SameRequest, GoodPlan, Claim;
    AllocateKeepsValid(s, request);
    if Allocated(s, request).Ok? {
      var normal := request.(intent := NormalIntent(request.intent).value);
      NormalExactly(request.intent.addresses);
      NormalRequestIsNormal(request.intent.addresses);
      if request.intent.owner !in s.leases {
        PlanIsGood(s, normal);
        PlanIsFree(s, normal, ProviderFor(s, normal).value, PlanAddresses(s, normal).value);
      } else {
        assert s.leases == s.leases[request.intent.owner := s.leases[request.intent.owner]];
      }
    }
  }

  lemma {:induction false} PlanIsFree(s: State, request: Request, provider: Provider, plan: Plan)
    requires Valid(s) && GoodPlan(s, request, provider, plan)
    ensures forall ip, o :: ip in plan.addresses && o in s.leases ==> ip !in s.leases[o].addresses
  {
    hide LeaseMatches, StrictlyAscending, PoolSet, LeasesValid;
    HeldByOwner(s);
  }

  /** The same request, sent again, returns the same lease and changes nothing. */
  lemma {:induction false} AllocateAgain(s: State, request: Request)
    requires Valid(s)
    ensures forall n :: n in s.pools ==> AllCanonical(s.pools[n].prefixes)
    ensures Allocated(s, request).Ok? ==>
      var (n, lease) := Allocated(s, request).value;
      n.pools == s.pools && Allocated(n, request) == Ok((n, lease))
  {
    hide Canonical, NormalRequest, PlanAddresses, ValidOwner, ValidProvider, LeasesValid, Inverse, EpochsDiffer, PoolSet, Claim;
    AllocateKeepsValid(s, request);
    if Allocated(s, request).Ok? {
      var normal := request.(intent := NormalIntent(request.intent).value);
      NormalIntentIsNormal(request.intent);
    }
  }

  /** A release is served exactly for a held owner while the revision can grow; it takes away
      exactly that lease, and its addresses are then nobody's. */
  lemma {:induction false} ReleaseExactly(s: State, owner: Owner)
    requires Valid(s)
    ensures Released(s, owner).Ok? <==> owner in s.leases && s.revision < U64_MAX
    ensures Released(s, owner).Ok? ==>
      var (n, lease) := Released(s, owner).value;
      && lease == s.leases[owner] && n.leases == s.leases - {owner} && n.pools == s.pools && n.lastEpoch == s.lastEpoch && n.revision == s.revision + 1
      && (forall ip :: ip in n.owners <==> ip in s.owners && ip !in lease.addresses)
      && (forall ip :: ip in n.owners ==> n.owners[ip] == s.owners[ip])
  {
    hide PoolSet, LeasesValid, Inverse, EpochsDiffer;
  }

  /** Reconciling is served exactly for a pool list that validation accepts, and changes only
      the pools. */
  lemma {:induction false} ReconcileExactly(s: State, pools: seq<Pool>)
    requires Valid(s)
    ensures Reconciled(s, pools).Ok? <==> AcceptedPools(pools)
    ensures Reconciled(s, pools).Ok? ==>
      var (n, changed) := Reconciled(s, pools).value;
      n == s.(pools := n.pools) && (changed <==> n.pools != s.pools)
  {
    hide AcceptedPools, Merged, PoolSet, Inverse, EpochsDiffer, SoundLease, CountFamily, Usable;
    forall o | o in s.leases && s.leases[o].pool.Some? ensures s.leases[o].pool.value.name in s.pools {
      assert LeaseValid(s, o);
      PoolName(s, o);
    }
  }

  lemma {:induction false} PoolName(s: State, o: Owner)
    requires PoolSet(s.pools) && o in s.leases && s.leases[o].pool.Some? && LeaseMatches(s.pools, s.leases[o])
    ensures s.leases[o].pool.value.name in s.pools
  {
  }

  /** Some lease is backed by the pool of this name. */
  ghost predicate InUse(s: State, name: string) {
    exists o :: o in s.leases && s.leases[o].pool.Some? && s.leases[o].pool.value.name == name
  }

  ghost predicate Covers(pool: Pool, ip: Ip) { exists p :: p in pool.prefixes && Contains(p, ip) }

  ghost predicate SharesAddress(a: Pool, b: Pool) { exists ip: Ip :: ip.Valid() && Covers(a, ip) && Covers(b, ip) }

  lemma {:induction false} DisjointIsUnshared(a: Pool, b: Pool)
    requires ValidPool(a) && ValidPool(b)
    ensures Disjoint(a, b) <==> !SharesAddress(a, b)
  {
    hide Canonical, Contains, Overlaps;
    forall p, q | p in a.prefixes && q in b.prefixes && Overlaps(p, q) ensures SharesAddress(a, b) {
      OverlapIsSharedAddress(p, q);
      var ip: Ip :| ip.Valid() && Contains(p, ip) && Contains(q, ip);
      assert Covers(a, ip) && Covers(b, ip);
    }
    if SharesAddress(a, b) {
      var ip: Ip :| ip.Valid() && Covers(a, ip) && Covers(b, ip);
      var p :| p in a.prefixes && Contains(p, ip);
      var q :| q in b.prefixes && Contains(q, ip);
      OverlapIsSharedAddress(p, q);
    }
  }

  lemma {:induction false} RetainedIsInUse(s: State, name: string)
    ensures name in RetainedNames(s.leases) <==> InUse(s, name)
  {
  }

  lemma {:induction false} MergedAt(current: map<string, Pool>, retained: set<string>, desired: map<string, Pool>, name: string)
    requires retained <= current.Keys && (name in desired ==> desired[name].name == name)
    ensures var next := Merged(current, retained, desired);
      && (name in retained ==> name in next && next[name] == current[name])
      && (name !in retained ==>
            && (name in next <==> name in desired && forall r :: r in retained && r in current ==> Disjoint(current[r], desired[name]))
            && (name in next ==> next[name] == desired[name]))
  {
    hide Disjoint;
  }

  /** The pool of a lease stays as it is. A listed pool whose name is not in use comes in, its
      prefixes in order, exactly when it shares no address with a pool in use; nothing else
      is there. */
  lemma {:induction false} ReconcileContents(s: State, pools: seq<Pool>, i: nat, name: string)
    requires Valid(s) && AcceptedPools(pools) && i < |pools| && Reconciled(s, pools).Ok?
    ensures var next := Reconciled(s, pools).value.0.pools;
      && (InUse(s, name) ==> name in s.pools && name in next && next[name] == s.pools[name])
      && (name in next && !InUse(s, name) ==> exists j :: 0 <= j < |pools| && pools[j].name == name)
      && (!InUse(s, pools[i].name) ==>
            && (pools[i].name in next <==> forall r :: InUse(s, r) && r in s.pools ==> !SharesAddress(s.pools[r], Ordered(pools[i])))
            && (pools[i].name in next ==> next[pools[i].name] == Ordered(pools[i])))
  {
    hide ValidPool, Ordered, SharesAddress, InUse, RetainedNames, Inverse, EpochsDiffer, SoundLease, LeasesValid, Merged, Disjoint, ByName, Sorted;
    NormalizedIsPoolSet(pools);
    ByNameEntries(pools);
    forall r ensures r in RetainedNames(s.leases) <==> InUse(s, r) { RetainedIsInUse(s, r); }
    MergedAt(s.pools, RetainedNames(s.leases), ByName(pools), name);
    MergedAt(s.pools, RetainedNames(s.leases), ByName(pools), pools[i].name);
    OrderedKeepsPool(pools[i]);
    forall r | r in s.pools ensures Disjoint(s.pools[r], Ordered(pools[i])) <==> !SharesAddress(s.pools[r], Ordered(pools[i])) {
      DisjointIsUnshared(s.pools[r], Ordered(pools[i]));
    }
  }
}
