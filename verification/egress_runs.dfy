/** Checkpoint and restore, and what holds over every run of the allocator. */
module EgressRuns {
  import opened Results
  import opened Orders
  import opened Sorting
  import opened EgressPrefixes
  import opened EgressPools
  import opened EgressAllocation
  import opened EgressSafety

  /** The state restricted to the leases of some owners. */
  ghost function Part(s: State, done: set<Owner>): State {
    s.(leases := map o | o in s.leases && o in done :: s.leases[o],
       owners := map ip | ip in s.owners && s.owners[ip] in done :: s.owners[ip])
  }

  lemma {:induction false} LeaseFacts(s: State, o: Owner)
    requires Valid(s) && o in s.leases
    ensures LeaseValid(s, o) && Inverse(s.leases, s.owners)
  {
  }

  /** Claiming one more owner's addresses extends the restricted index. */
  lemma {:induction false} PartClaim(leases: map<Owner, Lease>, owners: map<Ip, Owner>, done: set<Owner>, o: Owner)
    requires Inverse(leases, owners) && o in leases && o !in done
    ensures var part := map ip | ip in owners && owners[ip] in done :: owners[ip];
      && (forall ip :: ip in leases[o].addresses ==> ip !in part)
      && Claim(part, leases[o].addresses, o) == map ip | ip in owners && owners[ip] in done + {o} :: owners[ip]
  {
    var part := map ip | ip in owners && owners[ip] in done :: owners[ip];
    var more := map ip | ip in owners && owners[ip] in done + {o} :: owners[ip];
    var claimed := Claim(part, leases[o].addresses, o);
    forall ip | ip in leases[o].addresses ensures ip !in part { assert owners[ip] == o; }
    forall ip ensures ip in claimed <==> ip in more {
      assert ip in Elements(leases[o].addresses) <==> ip in leases[o].addresses;
      if ip in more && owners[ip] == o { assert ip in leases[o].addresses; }
    }
    assert claimed == more;
  }

  lemma {:induction false} RestoreOne(s: State, done: set<Owner>, o: Owner)
    requires Valid(s) && o in s.leases && o !in done
    ensures RestoreLease(Part(s, done), s.leases[o]) == Some(Part(s, done + {o}))
  {
    hide Valid, SoundLease, LeaseMatches, Inverse, Claim;
    LeaseFacts(s, o);
    PartClaim(s.leases, s.owners, done, o);
    assert Part(s, done).leases[o := s.leases[o]] == Part(s, done + {o}).leases;
  }

  lemma {:induction false} RestoreMany(s: State, done: set<Owner>, os: seq<Owner>, list: seq<Lease>)
    requires Valid(s) && |list| == |os|
    requires forall i :: 0 <= i < |os| ==> os[i] in s.leases && os[i] !in done && list[i] == s.leases[os[i]]
    requires forall i, j :: 0 <= i < j < |os| ==> os[i] != os[j]
    ensures RestoreLeases(Part(s, done), list) == Some(Part(s, done + Elements(os)))
    decreases |os|
  {
    hide Valid, Part, RestoreLease;
    if os == [] {
      assert done + Elements(os) == done;
    } else {
      RestoreOne(s, done, os[0]);
      RestoreMany(s, done + {os[0]}, os[1..], list[1..]);
      assert done + {os[0]} + Elements(os[1..]) == done + Elements(os) by {
        assert os == [os[0]] + os[1..];
      }
    }
  }

  lemma {:induction false} AcceptedNames(pools: seq<Pool>)
    requires AcceptedPools(pools)
    ensures forall i, j :: 0 <= i < j < |pools| ==> pools[i].name != pools[j].name
  {
    hide ValidPool, Disjoint;
  }

  lemma {:induction false} PoolListEntries(pools: map<string, Pool>)
    ensures var list, names := PoolList(pools), SortedNames(pools);
      && |list| == |names| && (forall i :: 0 <= i < |names| ==> names[i] in pools && list[i] == pools[names[i]])
      && (forall n :: n in pools ==> n in names)
  {
    hide StringLess;
    StringOrder();
    SortedMembers(pools.Keys, StringLess);
    var names := SortedNames(pools);
    forall i | 0 <= i < |names| ensures names[i] in pools { assert names[i] in names; }
  }

  lemma {:induction false} PoolListRestores(pools: map<string, Pool>)
    requires PoolSet(pools) && AcceptedPools(PoolList(pools))
    ensures ByName(PoolList(pools)) == pools
  {
    hide ValidPool, Disjoint, Ordered, ByName, AcceptedPools, PoolList, SortedNames;
    var list, names := PoolList(pools), SortedNames(pools);
    AcceptedNames(list);
    PoolListEntries(pools);
    ByNameEntries(list);
    var named := ByName(list);
    forall n | n in pools ensures n in named && named[n] == pools[n] {
      var i :| 0 <= i < |names| && names[i] == n;
      assert list[i].name == n;
      OrderedIsFixed(pools[n]);
    }
    forall n | n in named ensures n in pools {
      var i :| 0 <= i < |list| && list[i].name == n;
      assert names[i] in pools;
    }
  }

  lemma {:induction false} OrderedIsFixed(pool: Pool)
    requires Sorted(pool.prefixes, PrefixLess)
    ensures Ordered(pool) == pool
  {
    PrefixOrder();
    TotalHasNoTies(pool.prefixes, PrefixLess);
    SortOfSorted(pool.prefixes, PrefixLess);
  }

  ghost predicate UidsDiffer(pools: map<string, Pool>) {
    forall m, n :: m in pools && n in pools && m != n ==> pools[m].uid != pools[n].uid
  }

  /** The pools a restart accepts: no more than the limit, and no UID twice. */
  ghost predicate Restorable(pools: map<string, Pool>) {
    |pools| <= MAX_POOLS && UidsDiffer(pools)
  }

  /** Of the pools an allocator can hold, pool validation asks no more than that. */
  lemma {:induction false} RestorablePools(pools: map<string, Pool>)
    requires PoolSet(pools)
    ensures AcceptedPools(PoolList(pools)) <==> Restorable(pools)
  {
    hide ValidPool, Disjoint, PoolList, SortedNames, Sorted;
    var list, names := PoolList(pools), SortedNames(pools);
    PoolListEntries(pools);
    NamesDiffer(pools);
    if AcceptedPools(list) {
      forall m, n | m in pools && n in pools && m != n ensures pools[m].uid != pools[n].uid {
        var i :| 0 <= i < |names| && names[i] == m;
        var j :| 0 <= j < |names| && names[j] == n;
        assert list[i].uid != list[j].uid;
      }
    }
    if Restorable(pools) {
      forall pool | pool in list ensures ValidPool(pool) {
        var i :| 0 <= i < |list| && list[i] == pool;
        assert names[i] in pools;
      }
      forall i, j | 0 <= i < j < |list| ensures list[i].name != list[j].name && list[i].uid != list[j].uid && Disjoint(list[i], list[j]) {
        assert names[i] != names[j];
      }
    }
  }

  lemma {:induction false} NamesDiffer(pools: map<string, Pool>)
    ensures |PoolList(pools)| == |pools| == |SortedNames(pools)|
    ensures forall i, j :: 0 <= i < j < |SortedNames(pools)| ==> SortedNames(pools)[i] != SortedNames(pools)[j]
  {
    StringOrder();
    hide StringLess;
    var names := SortedNames(pools);
    forall i, j | 0 <= i < j < |names| ensures names[i] != names[j] { assert StringLess(names[i], names[j]); }
  }

  lemma {:induction false} LeaseListOrdered(leases: map<Owner, Lease>)
    requires forall o :: o in leases ==> leases[o].intent.owner == o
    ensures InOwnerOrder(LeaseList(leases)) && |LeaseList(leases)| == |leases|
    ensures var os := SortedOwners(leases);
      && |os| == |leases| && Elements(os) == leases.Keys
      && (forall i :: 0 <= i < |os| ==> os[i] in leases && LeaseList(leases)[i] == leases[os[i]])
      && (forall i, j :: 0 <= i < j < |os| ==> os[i] != os[j])
  {
    hide OwnerLess;
    OwnerOrder();
    SortedMembers(leases.Keys, OwnerLess);
    var os := SortedOwners(leases);
    forall i | 0 <= i < |os| ensures os[i] in leases { assert os[i] in os; }
    forall i, j | 0 <= i < j < |os| ensures os[i] != os[j] { assert OwnerLess(os[i], os[j]); }
  }

  /** Restoring a checkpoint returns the same state exactly when the pools are within the
      limit and share no UID, and otherwise refuses. */
  lemma {:induction false} CheckpointRoundTrip(s: State)
    requires Valid(s)
    ensures Restored(CheckpointOf(s)) == if Restorable(s.pools) then Some(s) else None
  {
    hide Valid, AcceptedPools, RestoreLeases, LeaseList, PoolList, InOwnerOrder, SortedOwners, Part, ByName, Restorable;
    LeaseBound(s);
    ValidPools(s);
    RestorablePools(s.pools);
    forall o | o in s.leases ensures s.leases[o].intent.owner == o { LeaseFacts(s, o); }
    LeaseListOrdered(s.leases);
    if o :| o in s.leases { SoundCounters(s, o); } else { assert s.leases == map[]; }
    if AcceptedPools(PoolList(s.pools)) {
      PoolListRestores(s.pools);
      RestoreMany(s, {}, SortedOwners(s.leases), LeaseList(s.leases));
      WholePart(s);
      assert {} + Elements(SortedOwners(s.leases)) == s.leases.Keys;
    }
  }

  lemma {:induction false} WholePart(s: State)
    requires Valid(s)
    ensures Part(s, s.leases.Keys) == s
    ensures Part(s, {}) == State(s.pools, map[], map[], s.revision, s.lastEpoch)
  {
    hide PoolSet, LeasesValid, EpochsDiffer;
    assert Part(s, s.leases.Keys).leases == s.leases;
    assert Part(s, s.leases.Keys).owners == s.owners;
  }

  lemma {:induction false} SoundCounters(s: State, o: Owner)
    requires Valid(s) && o in s.leases
    ensures s.revision != 0 && s.lastEpoch != 0
  {
    assert LeaseValid(s, o);
  }

  /** Everything validity asks, except distinct epochs and bounded counters. */
  ghost predicate Refiled(s: State) {
    && PoolSet(s.pools) && Inverse(s.leases, s.owners) && LeasesValid(s)
  }

  lemma {:induction false} RefilingKeeps(s: State, lease: Lease)
    requires Refiled(s) && RestoreLease(s, lease).Some?
    ensures var n := RestoreLease(s, lease).value;
      Refiled(n) && n.leases == s.leases[lease.intent.owner := lease] && lease.intent.owner !in s.leases && |n.leases| == |s.leases| + 1
  {
    hide PoolSet, Inverse, SoundLease, LeaseMatches, Claim;
    ClaimKeepsInverse(s.leases, s.owners, lease.intent.owner, lease);
    var n := RestoreLease(s, lease).value;
    forall o | o in n.leases ensures LeaseValid(n, o) {
      if o != lease.intent.owner { assert LeaseValid(s, o); }
    }
    assert n.leases.Keys == s.leases.Keys + {lease.intent.owner};
  }

  /** Restoring files exactly the listed leases. */
  lemma {:induction false} RefilesAll(s: State, leases: seq<Lease>)
    requires Refiled(s) && RestoreLeases(s, leases).Some?
    ensures var n := RestoreLeases(s, leases).value;
      && Refiled(n) && |n.leases| == |s.leases| + |leases| && n.revision == s.revision && n.lastEpoch == s.lastEpoch
      && (forall o :: o in s.leases ==> o in n.leases && n.leases[o] == s.leases[o])
      && (forall l :: l in leases ==> l.intent.owner in n.leases && n.leases[l.intent.owner] == l && l.intent.owner !in s.leases)
      && (forall o :: o in n.leases ==> o in s.leases || n.leases[o] in leases)
    decreases |leases|
  {
    hide Refiled, RestoreLease;
    if leases != [] {
      RestoredCounters(s, leases[0]);
      RefilingKeeps(s, leases[0]);
      var next := RestoreLease(s, leases[0]).value;
      RefilesAll(next, leases[1..]);
      assert leases == [leases[0]] + leases[1..];
      assert leases[0].intent.owner in next.leases;
    }
  }

  lemma {:induction false} RestoredCounters(s: State, lease: Lease)
    requires RestoreLease(s, lease).Some?
    ensures RestoreLease(s, lease).value.revision == s.revision && RestoreLease(s, lease).value.lastEpoch == s.lastEpoch
  {
  }

  ghost predicate DistinctEpochs(leases: seq<Lease>) {
    forall i, j :: 0 <= i < j < |leases| ==> leases[i].epoch != leases[j].epoch
  }

  /** A checkpoint that restores gives a valid allocator exactly when no two of its leases
      share an epoch: everything else is checked, that is not. */
  lemma {:induction false} RestoredIsValid(c: Checkpoint)
    requires Restored(c).Some? && c.revision <= U64_MAX && c.lastEpoch <= U64_MAX
    ensures Valid(Restored(c).value) <==> DistinctEpochs(c.leases)
  {
    hide LeaseValid, PoolSet, Inverse, RestoreLeases, OwnerLess, NormalizePools;
    var start := NewState(c.pools).value.(revision := c.revision, lastEpoch := c.lastEpoch);
    assert Refiled(start) by { NewIsRefiled(c.pools, start); }
    RefilesAll(start, c.leases);
    var s := Restored(c).value;
    ValidIsRefiled(s);
    forall i, j | 0 <= i < j < |c.leases| ensures c.leases[i].intent.owner != c.leases[j].intent.owner {
      OwnerOrder();
      assert OwnerLess(c.leases[i].intent.owner, c.leases[j].intent.owner);
    }
    if Valid(s) {
      forall i, j | 0 <= i < j < |c.leases| ensures c.leases[i].epoch != c.leases[j].epoch {
        assert c.leases[i] in c.leases && c.leases[j] in c.leases;
      }
    }
    if DistinctEpochs(c.leases) {
      forall a, b | a in s.leases && b in s.leases && a != b ensures s.leases[a].epoch != s.leases[b].epoch {
        var i :| 0 <= i < |c.leases| && c.leases[i] == s.leases[a];
        var j :| 0 <= j < |c.leases| && c.leases[j] == s.leases[b];
        assert s.leases[c.leases[i].intent.owner] == c.leases[i] && s.leases[c.leases[j].intent.owner] == c.leases[j];
        OwnersKept(s, a);
        OwnersKept(s, b);
      }
    }
  }

  lemma {:induction false} OwnersKept(s: State, o: Owner)
    requires Refiled(s) && o in s.leases
    ensures s.leases[o].intent.owner == o
  {
    assert LeaseValid(s, o);
  }

  lemma {:induction false} NewIsRefiled(pools: seq<Pool>, start: State)
    requires NewState(pools).Some? && start == NewState(pools).value.(revision := start.revision, lastEpoch := start.lastEpoch)
    ensures Refiled(start) && start.leases == map[]
  {
    NormalizedIsPoolSet(pools);
  }

  lemma {:induction false} ValidIsRefiled(s: State)
    ensures Valid(s) <==>
      && Refiled(s) && |s.leases| <= MAX_INTENTS && s.revision <= U64_MAX && s.lastEpoch <= U64_MAX
      && EpochsDiffer(s.leases)
  {
  }

  function HostLease(owner: Owner, value: nat): Lease {
    Lease(Intent(owner, 0, Explicit([V4(value)])), None, Provider("p", "i"), [V4(value)], 1, 1, 1, 1)
  }

  lemma {:induction false} HostLeaseIsSound(owner: Owner, value: nat)
    requires ValidOwner(owner) && value != 0
    ensures SoundLease(HostLease(owner, value), 1, 1) && LeaseMatches(map[], HostLease(owner, value))
  {
    hide ValidOwner;
    assert Sort([V4(value)], IpLess) == [V4(value)] by { assert [V4(value)][1..] == []; }
  }

  /** A checkpoint whose two leases share an epoch is restored. */
  lemma {:induction false} SharedEpochIsAccepted(a: Owner, b: Owner, x: nat, y: nat)
    requires ValidOwner(a) && ValidOwner(b) && OwnerLess(a, b) && x != 0 && y != 0 && x != y
    ensures var c := Checkpoint(CHECKPOINT_SCHEMA, 1, 1, [], [HostLease(a, x), HostLease(b, y)]);
      Restored(c).Some? && !Valid(Restored(c).value)
  {
    hide SoundLease, LeaseMatches, ValidOwner;
    OwnerOrder();
    hide OwnerLess;
    HostLeaseIsSound(a, x);
    HostLeaseIsSound(b, y);
    var c := Checkpoint(CHECKPOINT_SCHEMA, 1, 1, [], [HostLease(a, x), HostLease(b, y)]);
    var start := State(map[], map[], map[], 1, 1);
    assert NewState([]) == Some(start.(revision := 0, lastEpoch := 0));
    var first := RestoreLease(start, HostLease(a, x)).value;
    assert RestoreLease(first, HostLease(b, y)).Some?;
    assert c.leases[1..] == [HostLease(b, y)] && c.leases[1..][1..] == [];
    assert RestoreLeases(first, [HostLease(b, y)]).Some?;
    RestoredIsValid(c);
    assert c.leases[0].epoch == c.leases[1].epoch;
  }

  datatype World = World(state: State, issued: seq<Lease>)

  datatype Event = Allocate(request: Request) | Release(owner: Owner) | Reconcile(pools: seq<Pool>) | Restart

  /** `issued` lists every lease ever granted under a new epoch. A restart restores the
      checkpoint of the state it left. */
  ghost function Next(w: World, e: Event): World {
    match e
    case Allocate(request) =>
      if exists n :: n in w.state.pools && !AllCanonical(w.state.pools[n].prefixes) then w
      else
        var r := Allocated(w.state, request);
        if r.Err? then w
        else World(r.value.0, if request.intent.owner in w.state.leases then w.issued else w.issued + [r.value.1])
    case Release(owner) =>
      var r := Released(w.state, owner);
      if r.Err? then w else w.(state := r.value.0)
    case Reconcile(pools) =>
      var r := Reconciled(w.state, pools);
      if r.Err? then w else w.(state := r.value.0)
    case Restart =>
      var r := Restored(CheckpointOf(w.state));
      if r.None? then w else w.(state := r.value)
  }

  ghost function Run(w: World, events: seq<Event>): World
    decreases |events|
  {
    if events == [] then w else Run(Next(w, events[0]), events[1..])
  }

  /** Everything issued so far lies below the counters, in strictly growing order. */
  ghost predicate Fenced(w: World) {
    && (forall i :: 0 <= i < |w.issued| ==> w.issued[i].epoch <= w.state.lastEpoch && w.issued[i].revision <= w.state.revision)
    && (forall i, j :: 0 <= i < j < |w.issued| ==> w.issued[i].epoch < w.issued[j].epoch && w.issued[i].revision < w.issued[j].revision)
  }

  /** How one successful allocation moves the counters and the owner's lease. */
  lemma {:induction false} AllocationMoves(s: State, request: Request)
    requires Valid(s) && forall n :: n in s.pools ==> AllCanonical(s.pools[n].prefixes)
    requires Allocated(s, request).Ok?
    ensures var (n, lease) := Allocated(s, request).value; var owner := request.intent.owner;
      && owner in n.leases && n.leases[owner] == lease && n.leases.Keys == s.leases.Keys + {owner}
      && (forall o :: o in s.leases && o != owner ==> n.leases[o] == s.leases[o])
      && n.revision >= s.revision && n.lastEpoch >= s.lastEpoch
      && (owner !in s.leases ==> lease.epoch == n.lastEpoch == s.lastEpoch + 1 && lease.revision == n.revision == s.revision + 1)
      && (owner in s.leases ==>
            && lease.epoch == s.leases[owner].epoch && lease.revision >= s.leases[owner].revision
            && lease.addresses == s.leases[owner].addresses && n.lastEpoch == s.lastEpoch
            && (lease.intentEpoch > s.leases[owner].intentEpoch
                || (lease.intentEpoch == s.leases[owner].intentEpoch && lease.intentRevision >= s.leases[owner].intentRevision)))
  {
    hide Valid, NormalRequest, ProviderFor, PlanAddresses, AllCanonical, Refresh, Grant;
    var owner := request.intent.owner;
    var normal := request.(intent := NormalIntent(request.intent).value);
    var provider := ProviderFor(s, normal).value;
    if owner in s.leases {
      LeaseFacts(s, owner);
      RefreshMoves(s, owner, normal, provider);
    } else {
      GrantMoves(s, normal, provider, PlanAddresses(s, normal).value);
    }
  }

  lemma {:induction false} RefreshMoves(s: State, owner: Owner, request: Request, provider: Provider)
    requires owner in s.leases && request.intent.owner == owner && LeaseValid(s, owner)
    requires Refresh(s, s.leases[owner], request, provider).Ok?
    ensures var (n, lease) := Refresh(s, s.leases[owner], request, provider).value; var held := s.leases[owner];
      && n.leases == s.leases[owner := lease] && n.leases.Keys == s.leases.Keys + {owner}
      && n.revision >= s.revision && n.lastEpoch == s.lastEpoch
      && lease.epoch == held.epoch && lease.revision >= held.revision && lease.addresses == held.addresses
      && (lease.intentEpoch > held.intentEpoch || (lease.intentEpoch == held.intentEpoch && lease.intentRevision >= held.intentRevision))
  {
    hide NormalIntent, LeaseMatches, StrictlyAscending, ValidProvider;
    assert s.leases[owner := s.leases[owner]] == s.leases;
  }

  lemma {:induction false} GrantMoves(s: State, request: Request, provider: Provider, plan: Plan)
    requires request.intent.owner !in s.leases && Grant(s, request, provider, plan).Ok?
    ensures var (n, lease) := Grant(s, request, provider, plan).value; var owner := request.intent.owner;
      && n.leases == s.leases[owner := lease] && n.leases.Keys == s.leases.Keys + {owner}
      && lease.epoch == n.lastEpoch == s.lastEpoch + 1 && lease.revision == n.revision == s.revision + 1
  {
  }

  lemma {:induction false} NextKeeps(w: World, e: Event)
    requires Valid(w.state) && Fenced(w)
    ensures Valid(Next(w, e).state) && Fenced(Next(w, e))
    ensures Next(w, e).state.revision >= w.state.revision && Next(w, e).state.lastEpoch >= w.state.lastEpoch
  {
    hide Valid, Allocated, Released, Reconciled, Restored, AllCanonical;
    match e
    case Allocate(request) =>
      AllocateKeepsValid(w.state, request);
      if Allocated(w.state, request).Ok? { AllocationMoves(w.state, request); }
    case Release(owner) => if Released(w.state, owner).Ok? { ReleaseKeepsValid(w.state, owner); ReleaseMoves(w.state, owner); }
    case Reconcile(pools) => if Reconciled(w.state, pools).Ok? { ReconcileKeepsValid(w.state, pools); ReconcileMoves(w.state, pools); }
    case Restart => CheckpointRoundTrip(w.state);
  }

  lemma {:induction false} ReleaseMoves(s: State, owner: Owner)
    requires Released(s, owner).Ok?
    ensures var n := Released(s, owner).value.0;
      n.leases == s.leases - {owner} && n.revision == s.revision + 1 && n.lastEpoch == s.lastEpoch
  {
  }

  lemma {:induction false} ReconcileMoves(s: State, pools: seq<Pool>)
    requires Reconciled(s, pools).Ok?
    ensures Reconciled(s, pools).value.0 == s.(pools := Reconciled(s, pools).value.0.pools)
  {
  }

  lemma {:induction false} RunKeeps(w: World, events: seq<Event>)
    requires Valid(w.state) && Fenced(w)
    ensures Valid(Run(w, events).state) && Fenced(Run(w, events))
    decreases |events|
  {
    hide Valid, Fenced, Next;
    if events != [] {
      NextKeeps(w, events[0]);
      RunKeeps(Next(w, events[0]), events[1..]);
    }
  }

  lemma {:induction false} NewIsValid(pools: seq<Pool>)
    requires NewState(pools).Some?
    ensures Valid(NewState(pools).value) && Fenced(World(NewState(pools).value, []))
  {
    NormalizedIsPoolSet(pools);
  }

  /** Over every run from a new allocator: the index stays the exact inverse of the
      leases, every lease still satisfies its request, pools stay pairwise disjoint, and
      no epoch or allocation revision is ever issued twice. */
  lemma {:induction false} AllocatorInvariant(pools: seq<Pool>, events: seq<Event>)
    requires NewState(pools).Some?
    ensures var w := Run(World(NewState(pools).value, []), events);
      && Inverse(w.state.leases, w.state.owners)
      && (forall o :: o in w.state.leases ==> LeaseMatches(w.state.pools, w.state.leases[o]))
      && (forall m, n :: m in w.state.pools && n in w.state.pools && m != n ==> Disjoint(w.state.pools[m], w.state.pools[n]))
      && (forall i, j :: 0 <= i < j < |w.issued| ==> w.issued[i].epoch < w.issued[j].epoch && w.issued[i].revision < w.issued[j].revision)
  {
    hide SoundLease, LeaseMatches, Inverse, Run, Disjoint, ValidPool;
    NewIsValid(pools);
    RunKeeps(World(NewState(pools).value, []), events);
    var w := Run(World(NewState(pools).value, []), events);
    forall o | o in w.state.leases ensures LeaseMatches(w.state.pools, w.state.leases[o]) { assert LeaseValid(w.state, o); }
  }

  /** Where an owner can be once it held this epoch and revision. */
  ghost predicate Ahead(s: State, o: Owner, epoch: nat, revision: nat) {
    && epoch <= s.lastEpoch && revision <= s.revision
    && (o in s.leases ==> epoch <= s.leases[o].epoch && revision <= s.leases[o].revision)
  }

  lemma {:induction false} AheadStays(w: World, e: Event, o: Owner, epoch: nat, revision: nat)
    requires Valid(w.state) && Fenced(w) && Ahead(w.state, o, epoch, revision)
    ensures Ahead(Next(w, e).state, o, epoch, revision)
  {
    hide Valid, Allocated, Released, Reconciled, Restored, AllCanonical, Fenced;
    match e
    case Allocate(request) =>
      AllocateKeepsValid(w.state, request);
      if Allocated(w.state, request).Ok? { AllocationMoves(w.state, request); }
    case Release(owner) => if Released(w.state, owner).Ok? { ReleaseMoves(w.state, owner); }
    case Reconcile(pools) => if Reconciled(w.state, pools).Ok? { ReconcileMoves(w.state, pools); }
    case Restart => CheckpointRoundTrip(w.state);
  }

  lemma {:induction false} AheadForever(w: World, events: seq<Event>, o: Owner, epoch: nat, revision: nat)
    requires Valid(w.state) && Fenced(w) && Ahead(w.state, o, epoch, revision)
    ensures Ahead(Run(w, events).state, o, epoch, revision)
    decreases |events|
  {
    hide Valid, Fenced, Next, Ahead;
    if events != [] {
      AheadStays(w, events[0], o, epoch, revision);
      NextKeeps(w, events[0]);
      AheadForever(Next(w, events[0]), events[1..], o, epoch, revision);
    }
  }

  /** Whenever an owner holds a lease again, still or anew, its epoch and allocation revision
      have not gone back. */
  lemma {:induction false} HeldNeverRegresses(pools: seq<Pool>, before: seq<Event>, after: seq<Event>, o: Owner)
    requires NewState(pools).Some?
    requires var w := Run(World(NewState(pools).value, []), before); o in w.state.leases && o in Run(w, after).state.leases
    ensures var w := Run(World(NewState(pools).value, []), before);
      var held, later := w.state.leases[o], Run(w, after).state.leases[o];
      held.epoch <= later.epoch && held.revision <= later.revision
  {
    hide Valid, Fenced, Run;
    NewIsValid(pools);
    RunKeeps(World(NewState(pools).value, []), before);
    var w := Run(World(NewState(pools).value, []), before);
    HolderIsAhead(w.state, o);
    AheadForever(w, after, o, w.state.leases[o].epoch, w.state.leases[o].revision);
  }

  lemma {:induction false} HolderIsAhead(s: State, o: Owner)
    requires Valid(s) && o in s.leases
    ensures Ahead(s, o, s.leases[o].epoch, s.leases[o].revision)
  {
    assert LeaseValid(s, o);
  }

  /** Whoever holds this address is the owner that held it, under the same epoch and no older
      revision, or got it later, under a strictly larger epoch and revision. */
  ghost predicate AddressAhead(s: State, ip: Ip, owner: Owner, epoch: nat, revision: nat) {
    && epoch <= s.lastEpoch && revision <= s.revision
    && (forall o :: o in s.leases && ip in s.leases[o].addresses ==>
          || (o == owner && s.leases[o].epoch == epoch && s.leases[o].revision >= revision)
          || (s.leases[o].epoch > epoch && s.leases[o].revision > revision))
  }

  lemma {:induction false} AddressAheadStays(w: World, e: Event, ip: Ip, owner: Owner, epoch: nat, revision: nat)
    requires Valid(w.state) && Fenced(w) && AddressAhead(w.state, ip, owner, epoch, revision)
    ensures AddressAhead(Next(w, e).state, ip, owner, epoch, revision)
  {
    hide Valid, Allocated, Released, Reconciled, Restored, AllCanonical, Fenced;
    match e
    case Allocate(request) =>
      AllocateKeepsValid(w.state, request);
      if Allocated(w.state, request).Ok? { AllocationMoves(w.state, request); }
    case Release(released) => if Released(w.state, released).Ok? { ReleaseMoves(w.state, released); }
    case Reconcile(pools) => if Reconciled(w.state, pools).Ok? { ReconcileMoves(w.state, pools); }
    case Restart => CheckpointRoundTrip(w.state);
  }

  lemma {:induction false} AddressAheadForever(w: World, events: seq<Event>, ip: Ip, owner: Owner, epoch: nat, revision: nat)
    requires Valid(w.state) && Fenced(w) && AddressAhead(w.state, ip, owner, epoch, revision)
    ensures AddressAhead(Run(w, events).state, ip, owner, epoch, revision)
    decreases |events|
  {
    hide Valid, Fenced, Next, AddressAhead;
    if events != [] {
      AddressAheadStays(w, events[0], ip, owner, epoch, revision);
      NextKeeps(w, events[0]);
      AddressAheadForever(Next(w, events[0]), events[1..], ip, owner, epoch, revision);
    }
  }

  lemma {:induction false} OnlyHolder(s: State, ip: Ip, o: Owner)
    requires Valid(s) && o in s.leases && ip in s.leases[o].addresses
    ensures AddressAhead(s, ip, o, s.leases[o].epoch, s.leases[o].revision)
  {
    hide PoolSet, LeaseMatches;
    assert LeaseValid(s, o);
    forall x | x in s.leases && ip in s.leases[x].addresses ensures x == o { assert s.owners[ip] == x; }
  }

  /** An address held at two points of any run is still its first holder's, under the same
      epoch and no older revision, or it was reused: under a strictly larger epoch and a
      strictly larger revision than any its first holder had by then, refreshes included. */
  lemma {:induction false} ReusedAddressIsNewer(pools: seq<Pool>, before: seq<Event>, after: seq<Event>, ip: Ip, first: Owner, second: Owner)
    requires NewState(pools).Some?
    requires var w := Run(World(NewState(pools).value, []), before);
      && first in w.state.leases && ip in w.state.leases[first].addresses
      && second in Run(w, after).state.leases && ip in Run(w, after).state.leases[second].addresses
    ensures var w := Run(World(NewState(pools).value, []), before);
      var held, later := w.state.leases[first], Run(w, after).state.leases[second];
      || (first == second && held.epoch == later.epoch && held.revision <= later.revision)
      || (held.epoch < later.epoch && held.revision < later.revision)
  {
    hide Valid, Fenced, Run;
    NewIsValid(pools);
    RunKeeps(World(NewState(pools).value, []), before);
    var w := Run(World(NewState(pools).value, []), before);
    OnlyHolder(w.state, ip, first);
    AddressAheadForever(w, after, ip, first, w.state.leases[first].epoch, w.state.leases[first].revision);
  }
}
