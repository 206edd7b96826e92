/** Every allocator operation keeps the allocator valid. */
module EgressSafety {
  import opened Results
  import opened Orders
  import opened Sorting
  import opened EgressPrefixes
  import opened EgressPools
  import opened EgressAllocation

  lemma {:induction false} AscendingByNeighbours(addresses: seq<Ip>)
    requires StrictlyAscending(addresses)
    ensures Ascending(addresses, IpLess)
    decreases |addresses|
  {
    if |addresses| > 1 {
      var before := addresses[..|addresses| - 1];
      AscendingByNeighbours(before);
      var last := addresses[|addresses| - 1];
      forall i | 0 <= i < |before| ensures IpLess(addresses[i], last) {
        assert before[i] == addresses[i];
        if i < |before| - 1 { assert IpLess(before[i], before[|before| - 1]); }
      }
    }
  }

  /** Sorted without equal neighbours is strictly ascending. */
  lemma {:induction false} SortedDistinctAscends(addresses: seq<Ip>)
    requires Sorted(addresses, IpLess)
    requires forall i :: 0 <= i < |addresses| - 1 ==> addresses[i] != addresses[i + 1]
    ensures StrictlyAscending(addresses)
  {
  }

  /** A normalized request asks for the same, in strictly ascending order, and is its own
      normal form. */
  lemma {:induction false} NormalRequestIsNormal(request: AddressRequest)
    requires NormalRequest(request).Some?
    ensures var normal := NormalRequest(request).value;
      && NormalRequest(normal) == Some(normal)
      && (request.Explicit? ==> normal.Explicit? && StrictlyAscending(normal.addresses) && 0 < |normal.addresses| <= MAX_ADDRESSES
                                && multiset(normal.addresses) == multiset(request.addresses))
      && (request.FromPool? ==> normal.FromPool? && normal.families in {[Ipv4], [Ipv6], [Ipv4, Ipv6]} && 1 <= normal.perFamily <= MAX_ADDRESSES
                                && normal.name == request.name && normal.perFamily == request.perFamily
                                && forall f :: f in normal.families <==> f in request.families)
  {
    match request
    case FromPool(_, families, _) =>
      assert families[0].Ipv4? || families[0].Ipv6?;
      assert [Ipv4] + [] == [Ipv4] && [] + [Ipv6] == [Ipv6] && [Ipv4] + [Ipv6] == [Ipv4, Ipv6];
      assert NormalFamilies(NormalFamilies(families)) == NormalFamilies(families);
      forall f ensures f in NormalFamilies(families) <==> f in families { assert f == Ipv4 || f == Ipv6; }
    case Explicit(addresses) =>
      IpOrder();
      SortSorts(addresses, IpLess);
      TotalHasNoTies(Sort(addresses, IpLess), IpLess);
      SortOfSorted(Sort(addresses, IpLess), IpLess);
      SortedDistinctAscends(Sort(addresses, IpLess));
  }

  /** Normalizing twice changes nothing. */
  lemma {:induction false} NormalIntentIsNormal(intent: Intent)
    requires NormalIntent(intent).Some?
    ensures NormalIntent(NormalIntent(intent).value) == NormalIntent(intent)
  {
    NormalRequestIsNormal(intent.addresses);
  }

  predicate Offered(prefixes: seq<Prefix>, ip: Ip) {
    exists p :: p in prefixes && Usable(p, ip)
  }

  lemma {:induction false} ScanOffers(prefixes: seq<Prefix>, reserved: set<Ip>, index: nat, budget: nat, family: Family)
    requires AllCanonical(prefixes) && Scan(prefixes, reserved, index, budget).Some?
    requires forall p :: p in prefixes ==> p.address.Family() == family
    ensures var ip := Scan(prefixes, reserved, index, budget).value;
      ip !in reserved && ip.Family() == family && Offered(prefixes, ip)
    decreases |prefixes|, budget
  {
    hide Canonical, Usable, Candidate;
    var candidate := Candidate(prefixes[0], index);
    if candidate.None? {
      ScanOffers(prefixes[1..], reserved, 0, budget, family);
      var ip := Scan(prefixes[1..], reserved, 0, budget).value;
      var p :| p in prefixes[1..] && Usable(p, ip);
      assert p in prefixes;
    } else if candidate.value in reserved {
      ScanOffers(prefixes, reserved, index + 1, budget - 1, family);
    } else {
      CandidateIsValid(prefixes[0], index);
      UsableFamily(prefixes[0], candidate.value);
      assert prefixes[0] in prefixes;
    }
  }

  lemma {:induction false} UsableFamily(p: Prefix, ip: Ip)
    requires Usable(p, ip)
    ensures ip.Family() == p.address.Family()
  {
  }

  predicate Distinct(addresses: seq<Ip>) {
    forall i, j :: 0 <= i < j < |addresses| ==> addresses[i] != addresses[j]
  }

  /** What a successful search for `n` addresses of one family returns. */
  predicate Fresh(prefixes: seq<Prefix>, family: Family, n: nat, reserved: set<Ip>, taken: seq<Ip>) {
    && |taken| == n && Distinct(taken)
    && forall ip :: ip in taken ==> ip !in reserved && ip.Family() == family && Offered(prefixes, ip)
  }

  lemma {:induction false} TakeManyIsFresh(prefixes: seq<Prefix>, n: nat, reserved: set<Ip>, family: Family)
    requires AllCanonical(prefixes) && TakeMany(prefixes, n, reserved).Some?
    requires forall p :: p in prefixes ==> p.address.Family() == family
    ensures Fresh(prefixes, family, n, reserved, TakeMany(prefixes, n, reserved).value)
    decreases n
  {
    hide Scan, Offered, Canonical;
    if n > 0 {
      ScanOffers(prefixes, reserved, 0, MAX_SCAN, family);
      var ip := Scan(prefixes, reserved, 0, MAX_SCAN).value;
      TakeManyIsFresh(prefixes, n - 1, reserved + {ip}, family);
      var rest := TakeMany(prefixes, n - 1, reserved + {ip}).value;
      FreshGrows(prefixes, family, n, reserved, ip, rest);
    }
  }

  lemma {:induction false} FreshGrows(prefixes: seq<Prefix>, family: Family, n: nat, reserved: set<Ip>, ip: Ip, rest: seq<Ip>)
    requires n > 0 && Fresh(prefixes, family, n - 1, reserved + {ip}, rest)
    requires ip !in reserved && ip.Family() == family && Offered(prefixes, ip)
    ensures Fresh(prefixes, family, n, reserved, [ip] + rest)
  {
    hide Offered;
    var taken := [ip] + rest;
    forall i, j | 0 <= i < j < |taken| ensures taken[i] != taken[j] {
      assert taken[j] in rest;
      if i == 0 { assert taken[j] !in reserved + {ip}; }
    }
  }

  lemma {:induction false} CountAppend(a: seq<Ip>, b: seq<Ip>, family: Family)
    ensures CountFamily(a + b, family) == CountFamily(a, family) + CountFamily(b, family)
    decreases |a|
  {
    if a == [] {
      assert a + b == b;
    } else {
      CountAppend(a[1..], b, family);
      assert (a + b)[1..] == a[1..] + b;
    }
  }

  lemma {:induction false} CountUniform(taken: seq<Ip>, family: Family, other: Family)
    requires forall ip :: ip in taken ==> ip.Family() == family
    ensures CountFamily(taken, other) == if other == family then |taken| else 0
    decreases |taken|
  {
    if taken != [] {
      assert taken[0] in taken;
      CountUniform(taken[1..], family, other);
    }
  }

  lemma {:induction false} CountInsert(x: Ip, s: seq<Ip>, family: Family)
    ensures CountFamily(Insert(x, s, IpLess), family) == (if x.Family() == family then 1 else 0) + CountFamily(s, family)
    decreases |s|
  {
    if s == [] || !IpLess(s[0], x) {
      assert ([x] + s)[1..] == s;
    } else {
      CountInsert(x, s[1..], family);
      assert ([s[0]] + Insert(x, s[1..], IpLess))[1..] == Insert(x, s[1..], IpLess);
    }
  }

  lemma {:induction false} CountSort(s: seq<Ip>, family: Family)
    ensures CountFamily(Sort(s, IpLess), family) == CountFamily(s, family)
    decreases |s|
  {
    if s != [] {
      CountSort(s[1..], family);
      CountInsert(s[0], Sort(s[1..], IpLess), family);
    }
  }

  /** What planning from a pool returns, before sorting. */
  predicate Planned(pool: Pool, families: seq<Family>, perFamily: nat, reserved: set<Ip>, taken: seq<Ip>) {
    && |taken| == |families| * perFamily && Distinct(taken)
    && (forall ip :: ip in taken ==> ip !in reserved && ip.Family() in families && Offered(pool.prefixes, ip))
    && (forall f :: f in families ==> CountFamily(taken, f) == perFamily)
  }

  lemma {:induction false} OfferedByPool(pool: Pool, family: Family, ip: Ip)
    requires Offered(FamilyPrefixes(pool.prefixes, family), ip)
    ensures Offered(pool.prefixes, ip)
  {
    hide Usable;
    var p :| p in FamilyPrefixes(pool.prefixes, family) && Usable(p, ip);
    assert p in pool.prefixes;
  }

  lemma {:induction false} OneFamilyIsPlanned(pool: Pool, family: Family, perFamily: nat, reserved: set<Ip>)
    requires AllCanonical(pool.prefixes) && TakeMany(FamilyPrefixes(pool.prefixes, family), perFamily, reserved).Some?
    ensures Planned(pool, [family], perFamily, reserved, TakeMany(FamilyPrefixes(pool.prefixes, family), perFamily, reserved).value)
  {
    hide Offered, Canonical, TakeMany;
    var prefixes := FamilyPrefixes(pool.prefixes, family);
    var taken := TakeMany(prefixes, perFamily, reserved).value;
    TakeManyIsFresh(prefixes, perFamily, reserved, family);
    CountUniform(taken, family, family);
    forall ip | ip in taken ensures Offered(pool.prefixes, ip) { OfferedByPool(pool, family, ip); }
  }

  lemma {:induction false} TakeFamiliesIsPlanned(pool: Pool, families: seq<Family>, perFamily: nat, reserved: set<Ip>)
    requires AllCanonical(pool.prefixes) && families in {[Ipv4], [Ipv6], [Ipv4, Ipv6]}
    requires TakeFamilies(pool, families, perFamily, reserved).Some?
    ensures Planned(pool, families, perFamily, reserved, TakeFamilies(pool, families, perFamily, reserved).value)
  {
    hide Offered, Canonical, TakeMany, Planned;
    var first := TakeMany(FamilyPrefixes(pool.prefixes, families[0]), perFamily, reserved).value;
    OneFamilyIsPlanned(pool, families[0], perFamily, reserved);
    if |families| == 1 {
      assert families == [families[0]] && TakeFamilies(pool, families, perFamily, reserved).value == first + [] == first;
    } else {
      var later := reserved + Elements(first);
      OneFamilyIsPlanned(pool, families[1], perFamily, later);
      var second := TakeMany(FamilyPrefixes(pool.prefixes, families[1]), perFamily, later).value;
      assert families[1..] == [families[1]];
      assert TakeFamilies(pool, families[1..], perFamily, later).value == second + [] == second;
      assert families == [families[0], families[1]];
      BothFamiliesPlanned(pool, families[0], families[1], perFamily, reserved, first, second);
    }
  }

  lemma {:induction false} BothFamiliesPlanned(pool: Pool, a: Family, b: Family, perFamily: nat, reserved: set<Ip>, first: seq<Ip>, second: seq<Ip>)
    requires a != b && Planned(pool, [a], perFamily, reserved, first) && Planned(pool, [b], perFamily, reserved + Elements(first), second)
    ensures Planned(pool, [a, b], perFamily, reserved, first + second)
  {
    hide Offered;
    CountAppend(first, second, a);
    CountAppend(first, second, b);
    CountUniform(first, a, b);
    CountUniform(second, b, a);
    var taken := first + second;
    forall i, j | 0 <= i < j < |taken| ensures taken[i] != taken[j] {
      if i < |first| <= j {
        assert taken[i] in Elements(first) && taken[j] in second;
        assert taken[j] !in reserved + Elements(first);
      }
    }
    assert |[a, b]| * perFamily == 2 * perFamily && |[a]| * perFamily == perFamily;
  }

  /** Sorting a plan keeps it a plan and makes it strictly ascending. */
  lemma {:induction false} SortedPlan(pool: Pool, families: seq<Family>, perFamily: nat, reserved: set<Ip>, taken: seq<Ip>)
    requires Planned(pool, families, perFamily, reserved, taken)
    ensures Planned(pool, families, perFamily, reserved, Sort(taken, IpLess)) && StrictlyAscending(Sort(taken, IpLess))
  {
    hide Offered;
    var sorted := Sort(taken, IpLess);
    IpOrder();
    SortSorts(taken, IpLess);
    SameMembers(sorted, taken);
    forall f | f in families ensures CountFamily(sorted, f) == perFamily { CountSort(taken, f); }
    DistinctStays(taken, sorted);
    SortedDistinctAscends(sorted);
  }

  lemma {:induction false} DistinctStays(a: seq<Ip>, b: seq<Ip>)
    requires Distinct(a) && multiset(a) == multiset(b)
    ensures Distinct(b)
  {
    forall i, j | 0 <= i < j < |b| ensures b[i] != b[j] {
      if b[i] == b[j] {
        assert b == b[..i] + [b[i]] + b[i + 1..j] + [b[j]] + b[j + 1..];
        assert multiset(b)[b[i]] >= 2;
        AtMostOnce(a, b[i]);
      }
    }
  }

  lemma {:induction false} AtMostOnce(a: seq<Ip>, ip: Ip)
    requires Distinct(a)
    ensures multiset(a)[ip] <= 1
  {
    if ip in a {
      var x :| 0 <= x < |a| && a[x] == ip;
      assert a == a[..x] + [ip] + a[x + 1..];
      assert ip !in a[..x] && ip !in a[x + 1..];
      assert multiset(a) == multiset(a[..x]) + multiset{ip} + multiset(a[x + 1..]);
    }
  }

  lemma {:induction false} CanonicalPools(pools: map<string, Pool>)
    requires PoolSet(pools)
    ensures forall n :: n in pools ==> AllCanonical(pools[n].prefixes)
  {
    forall n | n in pools ensures AllCanonical(pools[n].prefixes) { assert ValidPool(pools[n]); }
  }

  /** A new lease on addresses nobody holds keeps the index exact. */
  lemma {:induction false} ClaimKeepsInverse(leases: map<Owner, Lease>, owners: map<Ip, Owner>, owner: Owner, lease: Lease)
    requires Inverse(leases, owners) && owner !in leases
    requires forall ip :: ip in lease.addresses ==> ip !in owners
    ensures Inverse(leases[owner := lease], Claim(owners, lease.addresses, owner))
  {
    var later, claimed := leases[owner := lease], Claim(owners, lease.addresses, owner);
    forall ip | ip in claimed ensures claimed[ip] in later && ip in later[claimed[ip]].addresses {
      assert ip in lease.addresses || ip in owners;
    }
    forall o, ip | o in later && ip in later[o].addresses ensures ip in claimed && claimed[ip] == o {
      if o != owner { assert ip in owners && owners[ip] == o; } else { assert ip in Elements(lease.addresses); }
    }
  }

  lemma {:induction false} ReleaseKeepsInverse(leases: map<Owner, Lease>, owners: map<Ip, Owner>, owner: Owner)
    requires Inverse(leases, owners) && owner in leases
    ensures Inverse(leases - {owner}, owners - Elements(leases[owner].addresses))
  {
    var later, left := leases - {owner}, owners - Elements(leases[owner].addresses);
    forall ip | ip in left ensures left[ip] in later && ip in later[left[ip]].addresses {
      assert ip in leases[owners[ip]].addresses;
    }
    forall o, ip | o in later && ip in later[o].addresses ensures ip in left && left[ip] == o {
      assert owners[ip] == o;
    }
  }

  /** A lease stays sound when the counters grow. */
  lemma {:induction false} SoundLater(lease: Lease, revision: nat, lastEpoch: nat, later: nat, laterEpoch: nat)
    requires SoundLease(lease, revision, lastEpoch) && revision <= later && lastEpoch <= laterEpoch
    ensures SoundLease(lease, later, laterEpoch)
  {
    hide NormalIntent, StrictlyAscending;
  }

  /** What planning promises for the lease it becomes part of. */
  predicate GoodPlan(s: State, request: Request, provider: Provider, plan: Plan) {
    && StrictlyAscending(plan.addresses) && 0 < |plan.addresses| <= 2 * MAX_ADDRESSES
    && (forall ip :: ip in plan.addresses ==> ip !in s.owners)
    && LeaseMatches(s.pools, Lease(request.intent, plan.pool, provider, plan.addresses, 1, 1, 1, 1))
  }

  lemma {:induction false} PlanIsGood(s: State, request: Request)
    requires Valid(s) && NormalRequest(request.intent.addresses) == Some(request.intent.addresses)
    requires forall n :: n in s.pools ==> AllCanonical(s.pools[n].prefixes)
    requires ProviderFor(s, request).Ok? && PlanAddresses(s, request).Ok?
    ensures GoodPlan(s, request, ProviderFor(s, request).value, PlanAddresses(s, request).value)
  {
    hide Valid, Canonical, Usable, TakeFamilies, NormalRequest, StrictlyAscending, Sort;
    NormalRequestIsNormal(request.intent.addresses);
    match request.intent.addresses
    case Explicit(addresses) =>
    case FromPool(name, families, perFamily) =>
      var pool := s.pools[name];
      TakeFamiliesIsPlanned(pool, families, perFamily, s.owners.Keys);
      SortedPlan(pool, families, perFamily, s.owners.Keys, TakeFamilies(pool, families, perFamily, s.owners.Keys).value);
      PlanSize(families, perFamily);
  }

  lemma {:induction false} PlanSize(families: seq<Family>, perFamily: nat)
    requires families in {[Ipv4], [Ipv6], [Ipv4, Ipv6]} && 1 <= perFamily <= MAX_ADDRESSES
    ensures 0 < |families| * perFamily <= 2 * MAX_ADDRESSES
  {
    assert |families| == 1 || |families| == 2;
  }

  lemma {:induction false} GrantKeepsValid(s: State, request: Request, provider: Provider, plan: Plan)
    requires Valid(s) && request.intent.owner !in s.leases && |s.leases| < MAX_INTENTS
    requires request.epoch != 0 && request.revision != 0
    requires NormalIntent(request.intent) == Some(request.intent) && ValidProvider(provider) && GoodPlan(s, request, provider, plan)
    requires Grant(s, request, provider, plan).Ok?
    ensures Valid(Grant(s, request, provider, plan).value.0)
  {
    hide NormalIntent, LeaseValid, LeasesValid, EpochsDiffer, PoolSet, Inverse, Claim, GoodPlan;
    var (n, lease) := Grant(s, request, provider, plan).value;
    var owner := request.intent.owner;
    GrantedLease(s, request, provider, plan, lease);
    ClaimKeepsInverse(s.leases, s.owners, owner, lease);
    FiledLeasesValid(s, n, lease);
    FreshEpoch(s, lease);
    assert n.leases.Keys == s.leases.Keys + {owner};
  }

  /** Filing one good lease under grown counters keeps every lease good. */
  lemma {:induction false} FiledLeasesValid(s: State, n: State, lease: Lease)
    requires LeasesValid(s) && n.pools == s.pools && n.leases == s.leases[lease.intent.owner := lease]
    requires s.revision <= n.revision && s.lastEpoch <= n.lastEpoch
    requires SoundLease(lease, n.revision, n.lastEpoch) && LeaseMatches(n.pools, lease)
    ensures LeasesValid(n)
  {
    hide SoundLease, LeaseMatches;
    forall o | o in n.leases ensures LeaseValid(n, o) {
      if o != lease.intent.owner {
        assert LeaseValid(s, o);
        SoundLater(s.leases[o], s.revision, s.lastEpoch, n.revision, n.lastEpoch);
      }
    }
  }

  lemma {:induction false} FreshEpoch(s: State, lease: Lease)
    requires Valid(s) && lease.epoch == s.lastEpoch + 1 && lease.intent.owner !in s.leases
    ensures EpochsDiffer(s.leases[lease.intent.owner := lease])
  {
    hide PoolSet, Inverse, LeaseMatches;
    var later := s.leases[lease.intent.owner := lease];
    forall a, b | a in later && b in later && a != b ensures later[a].epoch != later[b].epoch {
      if a != lease.intent.owner { EpochBound(s, a); }
      if b != lease.intent.owner { EpochBound(s, b); }
    }
  }

  lemma {:induction false} EpochBound(s: State, o: Owner)
    requires Valid(s) && o in s.leases
    ensures s.leases[o].epoch <= s.lastEpoch
  {
    assert LeaseValid(s, o);
  }

  lemma {:induction false} GrantedLease(s: State, request: Request, provider: Provider, plan: Plan, lease: Lease)
    requires NormalIntent(request.intent) == Some(request.intent) && ValidProvider(provider) && GoodPlan(s, request, provider, plan)
    requires request.epoch != 0 && request.revision != 0
    requires lease == Lease(request.intent, plan.pool, provider, plan.addresses, s.lastEpoch + 1, request.epoch, request.revision, s.revision + 1)
    ensures SoundLease(lease, s.revision + 1, s.lastEpoch + 1) && LeaseMatches(s.pools, lease)
    ensures forall ip :: ip in lease.addresses ==> ip !in s.owners
  {
    hide NormalIntent, StrictlyAscending, ValidProvider, Usable, CountFamily;
  }

  /** Refreshing a lease leaves its addresses, and so the index, alone. */
  lemma {:induction false} RefreshKeepsInverse(leases: map<Owner, Lease>, owners: map<Ip, Owner>, owner: Owner, lease: Lease)
    requires Inverse(leases, owners) && owner in leases && lease.addresses == leases[owner].addresses
    ensures Inverse(leases[owner := lease], owners)
  {
    var later := leases[owner := lease];
    forall ip | ip in owners ensures owners[ip] in later && ip in later[owners[ip]].addresses {
      assert ip in leases[owners[ip]].addresses;
    }
    forall o, ip | o in later && ip in later[o].addresses ensures ip in owners && owners[ip] == o {
      assert ip in leases[o].addresses;
    }
  }

  /** The refreshed lease keeps pool, provider, addresses and epoch. */
  lemma {:induction false} RefreshedLease(s: State, owner: Owner, request: Request, revision: nat)
    requires Valid(s) && owner in s.leases && request.epoch != 0 && request.revision != 0 && 0 < revision
    requires NormalIntent(request.intent) == Some(request.intent) && s.leases[owner].intent.addresses == request.intent.addresses
    ensures var lease := s.leases[owner].(intent := request.intent, intentEpoch := request.epoch, intentRevision := request.revision, revision := revision);
      SoundLease(lease, revision, s.lastEpoch) && LeaseMatches(s.pools, lease) && lease.epoch == s.leases[owner].epoch
  {
    hide NormalIntent, StrictlyAscending, PoolSet, ValidProvider, Inverse, Usable, CountFamily;
    assert LeaseValid(s, owner);
  }

  lemma {:induction false} RefreshKeepsValid(s: State, request: Request, provider: Provider)
    requires Valid(s) && request.intent.owner in s.leases && request.epoch != 0 && request.revision != 0
    requires NormalIntent(request.intent) == Some(request.intent)
    requires Refresh(s, s.leases[request.intent.owner], request, provider).Ok?
    ensures Valid(Refresh(s, s.leases[request.intent.owner], request, provider).value.0)
  {
    hide NormalIntent, LeaseValid, LeasesValid, PoolSet, Inverse, SoundLease, LeaseMatches;
    var owner := request.intent.owner;
    var (n, lease) := Refresh(s, s.leases[owner], request, provider).value;
    if n != s {
      RefreshedLease(s, owner, request, n.revision);
      RefreshKeepsInverse(s.leases, s.owners, owner, lease);
      FiledLeasesValid(s, n, lease);
      assert n.leases.Keys == s.leases.Keys;
    }
  }

  lemma {:induction false} ReleaseKeepsValid(s: State, owner: Owner)
    requires Valid(s) && Released(s, owner).Ok?
    ensures Valid(Released(s, owner).value.0)
  {
    hide SoundLease, LeaseMatches, PoolSet, Inverse;
    var n := Released(s, owner).value.0;
    ReleaseKeepsInverse(s.leases, s.owners, owner);
    forall o | o in n.leases ensures LeaseValid(n, o) {
      assert LeaseValid(s, o);
      SoundLater(s.leases[o], s.revision, s.lastEpoch, n.revision, n.lastEpoch);
    }
    assert n.leases.Keys == s.leases.Keys - {owner};
  }

  /** Retained pools keep their definition; what joins them is disjoint from all of them. */
  lemma {:induction false} MergedIsPoolSet(current: map<string, Pool>, retained: set<string>, desired: map<string, Pool>)
    requires PoolSet(current) && PoolSet(desired) && retained <= current.Keys
    ensures PoolSet(Merged(current, retained, desired))
    ensures forall n :: n in retained ==> n in Merged(current, retained, desired) && Merged(current, retained, desired)[n] == current[n]
  {
    hide ValidPool, Disjoint;
    var next := Merged(current, retained, desired);
    forall m, n | m in next && n in next && m != n ensures Disjoint(next[m], next[n]) {
      if n in retained && m !in retained {
        assert Admissible(current, retained, desired[m]);
        DisjointIsSymmetric(current[n], desired[m]);
      }
    }
  }

  lemma {:induction false} DisjointIsSymmetric(a: Pool, b: Pool)
    ensures Disjoint(a, b) == Disjoint(b, a)
  {
    hide Overlaps;
    forall p, q ensures Overlaps(p, q) == Overlaps(q, p) { OverlapIsSymmetric(p, q); }
  }

  lemma {:induction false} ReconcileKeepsValid(s: State, pools: seq<Pool>)
    requires Valid(s) && Reconciled(s, pools).Ok?
    ensures Valid(Reconciled(s, pools).value.0)
  {
    hide SoundLease, PoolSet, Inverse, Merged, AcceptedPools, Usable;
    NormalizedIsPoolSet(pools);
    var retained := RetainedNames(s.leases);
    assert retained <= s.pools.Keys;
    MergedIsPoolSet(s.pools, retained, ByName(pools));
    var n := Reconciled(s, pools).value.0;
    forall o | o in n.leases ensures LeaseValid(n, o) {
      assert LeaseValid(s, o);
      if s.leases[o].pool.Some? { RetainedName(s, o); }
    }
  }

  lemma {:induction false} RetainedName(s: State, o: Owner)
    requires Valid(s) && o in s.leases && s.leases[o].pool.Some?
    ensures s.leases[o].intent.addresses.FromPool? && s.leases[o].intent.addresses.name in RetainedNames(s.leases)
  {
    assert LeaseValid(s, o);
  }

  /** No call, successful or not, leaves the allocator invalid. */
  lemma {:induction false} AllocateKeepsValid(s: State, request: Request)
    requires Valid(s)
    ensures forall n :: n in s.pools ==> AllCanonical(s.pools[n].prefixes)
    ensures Allocated(s, request).Ok? ==> Valid(Allocated(s, request).value.0)
  {
    hide Valid, Refresh, Grant, PlanAddresses, NormalRequest, ProviderFor, PoolSet, Inverse, SoundLease, LeaseMatches, GoodPlan, ValidProvider, Canonical;
    assert PoolSet(s.pools) by { ValidPools(s); }
    CanonicalPools(s.pools);
    if Allocated(s, request).Ok? {
      NormalIntentIsNormal(request.intent);
      var normal := request.(intent := NormalIntent(request.intent).value);
      var provider := ProviderFor(s, normal).value;
      if normal.intent.owner in s.leases {
        RefreshKeepsValid(s, normal, provider);
      } else {
        LeaseBound(s);
        PlanIsGood(s, normal);
        ProviderIsValid(s, normal);
        GrantKeepsValid(s, normal, provider, PlanAddresses(s, normal).value);
      }
    }
  }

  lemma {:induction false} ValidPools(s: State)
    requires Valid(s)
    ensures PoolSet(s.pools)
  {
  }

  lemma {:induction false} LeaseBound(s: State)
    requires Valid(s)
    ensures |s.leases| <= MAX_INTENTS
  {
  }

  lemma {:induction false} ProviderIsValid(s: State, request: Request)
    requires Valid(s) && ProviderFor(s, request).Ok?
    ensures ValidProvider(ProviderFor(s, request).value)
  {
    ValidPools(s);
  }
}
