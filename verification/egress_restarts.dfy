/** When a restart accepts what reconciling left, and the two ways it does not. */
module EgressRestarts {
  import opened Results
  import opened Orders
  import opened Sorting
  import opened EgressPrefixes
  import opened EgressPools
  import opened EgressAllocation
  import opened EgressSafety
  import opened EgressRuns

  /** The desired pools a reconcile call takes in beside what it retains. */
  ghost function Admitted(s: State, desired: map<string, Pool>): set<string> {
    set n | n in desired && Admissible(s.pools, RetainedNames(s.leases), desired[n])
  }

  /** What a caller can check beforehand: few enough pools, and no retained pool's UID on
      another pool that stays or comes in. */
  ghost predicate KeepsRestorable(s: State, desired: map<string, Pool>) {
    var retained := RetainedNames(s.leases);
    && |Admitted(s, desired) + retained| <= MAX_POOLS
    && (forall r, t :: r in retained && t in retained && r in s.pools && t in s.pools && r != t ==> s.pools[r].uid != s.pools[t].uid)
    && (forall r, d :: r in retained && r in s.pools && d in Admitted(s, desired) && d in desired && r != d ==> s.pools[r].uid != desired[d].uid)
  }

  lemma {:induction false} MergedEntries(s: State, desired: map<string, Pool>)
    requires PoolSet(s.pools) && PoolSet(desired) && RetainedNames(s.leases) <= s.pools.Keys
    ensures var next := Merged(s.pools, RetainedNames(s.leases), desired);
      && next.Keys == Admitted(s, desired) + RetainedNames(s.leases)
      && (forall n :: n in RetainedNames(s.leases) ==> next[n] == s.pools[n])
      && (forall n :: n in Admitted(s, desired) ==> next[n] == desired[n])
  {
    hide ValidPool, Disjoint, RetainedNames, Sorted;
  }

  lemma {:induction false} AcceptedUidsDiffer(pools: seq<Pool>)
    requires AcceptedPools(pools)
    ensures UidsDiffer(ByName(pools))
  {
    hide ValidPool, Disjoint, Ordered;
    ByNameEntries(pools);
    var named := ByName(pools);
    forall m, n | m in named && n in named && m != n ensures named[m].uid != named[n].uid {
      var i :| 0 <= i < |pools| && pools[i].name == m;
      var j :| 0 <= j < |pools| && pools[j].name == n;
      OrderedName(pools[i]);
      OrderedName(pools[j]);
    }
  }

  /** After a reconcile call the checkpoint restores to the same state exactly when the caller's
      condition held, and is refused otherwise. */
  lemma {:induction false} ReconcileThenRestore(s: State, pools: seq<Pool>)
    requires Valid(s) && Reconciled(s, pools).Ok?
    ensures AcceptedPools(pools)
    ensures var n := Reconciled(s, pools).value.0;
      Restored(CheckpointOf(n)) == if KeepsRestorable(s, ByName(pools)) then Some(n) else None
  {
    hide Valid, AcceptedPools, Merged, RetainedNames, Restored, CheckpointOf, PoolSet, ByName, Restorable, KeepsRestorable;
    var n, desired := Reconciled(s, pools).value.0, ByName(pools);
    ReconcileKeepsValid(s, pools);
    CheckpointRoundTrip(n);
    ValidPools(s);
    NormalizedIsPoolSet(pools);
    AcceptedUidsDiffer(pools);
    MergedRestorable(s, desired);
  }

  lemma {:induction false} MergedRestorable(s: State, desired: map<string, Pool>)
    requires PoolSet(s.pools) && PoolSet(desired) && UidsDiffer(desired) && RetainedNames(s.leases) <= s.pools.Keys
    ensures Restorable(Merged(s.pools, RetainedNames(s.leases), desired)) <==> KeepsRestorable(s, desired)
  {
    hide Merged, RetainedNames, PoolSet, Admitted, UidsDiffer;
    MergedEntries(s, desired);
    var next, retained := Merged(s.pools, RetainedNames(s.leases), desired), RetainedNames(s.leases);
    assert |next| == |next.Keys|;
    forall n ensures n in Admitted(s, desired) ==> n in desired { AdmittedIsDesired(s, desired, n); }
    MergedUids(s.pools, desired, retained, Admitted(s, desired), next);
  }

  /** Two pools that stay or come in share a UID only if one of them is retained. */
  lemma {:induction false} MergedUids(pools: map<string, Pool>, desired: map<string, Pool>, retained: set<string>, admitted: set<string>, next: map<string, Pool>)
    requires UidsDiffer(desired) && retained <= pools.Keys && admitted <= desired.Keys && next.Keys == admitted + retained
    requires (forall n :: n in retained ==> next[n] == pools[n]) && (forall n :: n in admitted ==> next[n] == desired[n])
    ensures UidsDiffer(next) <==>
      && (forall r, t :: r in retained && t in retained && r in pools && t in pools && r != t ==> pools[r].uid != pools[t].uid)
      && (forall r, d :: r in retained && r in pools && d in admitted && d in desired && r != d ==> pools[r].uid != desired[d].uid)
  {
    if UidsDiffer(next) {
      forall r, d | r in retained && d in admitted && r != d ensures pools[r].uid != desired[d].uid { assert next[r].uid != next[d].uid; }
      forall r, t | r in retained && t in retained && r != t ensures pools[r].uid != pools[t].uid { assert next[r].uid != next[t].uid; }
    }
  }

  lemma {:induction false} SharedUid(pools: map<string, Pool>, a: string, b: string)
    requires a in pools && b in pools && a != b && pools[a].uid == pools[b].uid
    ensures !Restorable(pools)
  {
  }

  lemma {:induction false} AdmittedIsDesired(s: State, desired: map<string, Pool>, n: string)
    ensures n in Admitted(s, desired) ==> n in desired
  {
  }

  /** A pool of one address. */
  function HostPool(name: string, uid: string, value: nat): Pool {
    Pool(name, uid, Provider("p", "i"), [Prefix(V4(value), 32)])
  }

  function HostRequest(owner: Owner, name: string): Request {
    Request(Intent(owner, 0, FromPool(name, [Ipv4], 1)), None, 1, 1)
  }

  lemma {:induction false} SmallPower()
    ensures Bits.Pow2(0) == 1 && Bits.Pow2(32) > 1000 && INDEX_RANGE > 1
  {
    Bits.Pow2Monotone(10, 32);
    Bits.Pow2Monotone(10, 64);
    assert Bits.Pow2(5) == 32;
    assert Bits.Pow2(10) == 1024;
  }

  lemma {:induction false} HostPrefix(value: nat)
    requires 0 < value < 1000
    ensures var p := Prefix(V4(value), 32); Canonical(p) && p.HostBits() == 0 && Candidate(p, 0) == Some(V4(value))
    ensures forall other: nat :: Contains(Prefix(V4(value), 32), V4(other)) ==> other == value
  {
    SmallPower();
    hide Bits.Pow2;
  }

  lemma {:induction false} HostPoolNormalizes(name: string, uid: string, value: nat)
    requires ValidName(name) && ValidUid(uid) && 0 < value < 1000
    ensures NormalizePools([HostPool(name, uid, value)]) == Some(map[name := HostPool(name, uid, value)])
  {
    HostPrefix(value);
    hide Canonical, Contains;
    var pool := HostPool(name, uid, value);
    assert ValidPool(pool);
    assert Sort(pool.prefixes, PrefixLess) == pool.prefixes by { assert pool.prefixes[1..] == []; }
    assert ByName([pool]) == map[name := pool] by {
      assert [pool][..0] == [];
      assert ByName([]) == map[];
    }
  }

  lemma {:induction false} HostPoolsDisjoint(a: string, u: string, x: nat, b: string, v: string, y: nat)
    requires 0 < x < 1000 && 0 < y < 1000 && x != y
    ensures Disjoint(HostPool(a, u, x), HostPool(b, v, y))
  {
    HostPrefix(x);
    HostPrefix(y);
    hide Contains;
  }

  /** The only address of a host pool is the one handed out. */
  lemma {:induction false} HostTaken(name: string, uid: string, value: nat)
    requires 0 < value < 1000
    ensures AllCanonical(HostPool(name, uid, value).prefixes)
    ensures TakeFamilies(HostPool(name, uid, value), [Ipv4], 1, {}) == Some([V4(value)])
  {
    HostPrefix(value);
    hide Canonical, Candidate, Contains;
    var prefixes := [Prefix(V4(value), 32)];
    assert FamilyPrefixes(prefixes, Ipv4) == prefixes by { assert prefixes[1..] == []; }
    assert Scan(prefixes, {}, 0, MAX_SCAN) == Some(V4(value));
    assert TakeMany(prefixes, 1, {}) == Some([V4(value)]) by {
      assert TakeMany(prefixes, 0, {} + {V4(value)}) == Some([]);
      assert [V4(value)] + [] == [V4(value)];
    }
    assert TakeFamilies(HostPool(name, uid, value), [Ipv4][1..], 1, {} + Elements([V4(value)])) == Some([]);
    assert [V4(value)] + [] == [V4(value)];
  }

  lemma {:induction false} HostAllocated(name: string, uid: string, value: nat, owner: Owner)
    requires ValidName(name) && 0 < value < 1000 && ValidOwner(owner)
    ensures AllCanonical(HostPool(name, uid, value).prefixes)
    ensures var s := State(map[name := HostPool(name, uid, value)], map[], map[], 0, 0);
      var r := Allocated(s, HostRequest(owner, name));
      && (forall n :: n in s.pools ==> AllCanonical(s.pools[n].prefixes))
      && r.Ok? && r.value.1.pool == Some(PoolRef(name, uid))
      && r.value.0.leases == map[owner := r.value.1] && r.value.0.pools == s.pools
  {
    hide NormalIntent, ProviderFor, PlanAddresses, AllCanonical, Claim, HostPool, ValidOwner;
    HostNormal(owner, name);
    HostPlanned(name, uid, value, owner);
    var s := State(map[name := HostPool(name, uid, value)], map[], map[], 0, 0);
    assert s.leases[owner := Allocated(s, HostRequest(owner, name)).value.1] == map[owner := Allocated(s, HostRequest(owner, name)).value.1];
  }

  lemma {:induction false} HostNormal(owner: Owner, name: string)
    requires ValidName(name) && ValidOwner(owner)
    ensures NormalIntent(HostRequest(owner, name).intent) == Some(HostRequest(owner, name).intent)
  {
    hide ValidOwner;
    assert NormalFamilies([Ipv4]) == [Ipv4] by { assert [Ipv4] + [] == [Ipv4]; }
  }

  lemma {:induction false} HostPlanned(name: string, uid: string, value: nat, owner: Owner)
    requires 0 < value < 1000
    ensures AllCanonical(HostPool(name, uid, value).prefixes)
    ensures var s := State(map[name := HostPool(name, uid, value)], map[], map[], 0, 0); var request := HostRequest(owner, name);
      && (forall n :: n in s.pools ==> AllCanonical(s.pools[n].prefixes))
      && ProviderFor(s, request).Ok? && PlanAddresses(s, request).Ok?
      && PlanAddresses(s, request).value.pool == Some(PoolRef(name, uid))
  {
    HostTaken(name, uid, value);
    hide AllCanonical, TakeFamilies, Sort;
    assert State(map[name := HostPool(name, uid, value)], map[], map[], 0, 0).owners.Keys == {};
  }

  /** Reconciling can leave pools that a restart refuses: a pool retained for its lease
      beside a new pool that reuses its UID. */
  lemma {:induction false} ReconcileCanBlockRestore(a: string, b: string, uid: string, x: nat, y: nat, owner: Owner)
    requires ValidName(a) && ValidName(b) && ValidUid(uid) && a != b && 0 < x < 1000 && 0 < y < 1000 && x != y && ValidOwner(owner)
    ensures NewState([HostPool(a, uid, x)]).Some?
    ensures var w := Run(World(NewState([HostPool(a, uid, x)]).value, []), [Allocate(HostRequest(owner, a)), Reconcile([HostPool(b, uid, y)])]);
      Restored(CheckpointOf(w.state)) == None
  {
    hide Next, Run, Restored, CheckpointOf, Valid, Fenced, HostPool, HostRequest;
    var w0 := World(State(map[a := HostPool(a, uid, x)], map[], map[], 0, 0), []);
    HostPoolNormalizes(a, uid, x);
    assert NewState([HostPool(a, uid, x)]) == Some(w0.state);
    NewIsValid([HostPool(a, uid, x)]);
    var w1 := Next(w0, Allocate(HostRequest(owner, a)));
    NextKeeps(w0, Allocate(HostRequest(owner, a)));
    HostGranted(w0, a, uid, x, owner);
    HostAdopted(w1, a, b, uid, x, y, owner);
    RunTwo(w0, Allocate(HostRequest(owner, a)), Reconcile([HostPool(b, uid, y)]));
  }

  lemma {:induction false} RunTwo(w: World, first: Event, second: Event)
    ensures Run(w, [first, second]) == Next(Next(w, first), second)
  {
    hide Next;
    assert [first, second][1..] == [second] && [second][1..] == [];
    assert Run(Next(w, first), [second]) == Run(Next(Next(w, first), second), []);
  }

  lemma {:induction false} HostGranted(w: World, a: string, uid: string, x: nat, owner: Owner)
    requires ValidName(a) && 0 < x < 1000 && ValidOwner(owner)
    requires w.state == State(map[a := HostPool(a, uid, x)], map[], map[], 0, 0)
    ensures var n := Next(w, Allocate(HostRequest(owner, a))).state;
      n.pools == w.state.pools && n.leases.Keys == {owner} && n.leases[owner].pool == Some(PoolRef(a, uid))
  {
    HostAllocated(a, uid, x, owner);
    hide Allocated, AllCanonical, HostPool, HostRequest;
  }

  lemma {:induction false} HostAdopted(w: World, a: string, b: string, uid: string, x: nat, y: nat, owner: Owner)
    requires ValidName(b) && ValidUid(uid) && a != b && 0 < x < 1000 && 0 < y < 1000 && x != y
    requires Valid(w.state) && Fenced(w) && w.state.pools == map[a := HostPool(a, uid, x)]
    requires w.state.leases.Keys == {owner} && w.state.leases[owner].pool == Some(PoolRef(a, uid))
    ensures Restored(CheckpointOf(Next(w, Reconcile([HostPool(b, uid, y)])).state)) == None
  {
    hide NormalizePools, AcceptedPools, Restored, CheckpointOf, Valid, Fenced, HostPool, Merged, RetainedNames;
    HostPoolNormalizes(b, uid, y);
    HostMerged(w.state.leases, a, b, uid, x, y, owner);
    NextKeeps(w, Reconcile([HostPool(b, uid, y)]));
    var n := Next(w, Reconcile([HostPool(b, uid, y)])).state;
    assert n.pools == map[a := HostPool(a, uid, x), b := HostPool(b, uid, y)];
    assert a in n.pools && b in n.pools && n.pools[a].uid == n.pools[b].uid;
    hide Restorable;
    SharedUid(n.pools, a, b);
    CheckpointRoundTrip(n);
  }

  lemma {:induction false} HostMerged(leases: map<Owner, Lease>, a: string, b: string, uid: string, x: nat, y: nat, owner: Owner)
    requires a != b && 0 < x < 1000 && 0 < y < 1000 && x != y
    requires leases.Keys == {owner} && leases[owner].pool == Some(PoolRef(a, uid))
    ensures RetainedNames(leases) == {a}
    ensures Merged(map[a := HostPool(a, uid, x)], {a}, map[b := HostPool(b, uid, y)]) == map[a := HostPool(a, uid, x), b := HostPool(b, uid, y)]
    ensures HostPool(a, uid, x).uid == HostPool(b, uid, y).uid
  {
    HostPoolsDisjoint(a, uid, x, b, uid, y);
    hide Disjoint;
    assert owner in leases;
    assert Admissible(map[a := HostPool(a, uid, x)], {a}, HostPool(b, uid, y));
  }

  /** 64 more pools of one address each. */
  function Crowd(n: nat): seq<Pool> {
    seq(n, i requires 0 <= i < n => HostPool(Tally(i + 1), Tally(i + 1), i + 2))
  }

  /** A name that counts. */
  function Tally(n: nat): (r: string)
    ensures |r| == n && (n > 0 ==> r[0] == 't')
  {
    seq(n, i => 't')
  }

  lemma {:induction false} CrowdIsAccepted()
    ensures AcceptedPools(Crowd(MAX_POOLS))
  {
    hide Disjoint, Canonical, Contains;
    var crowd := Crowd(MAX_POOLS);
    forall pool | pool in crowd ensures ValidPool(pool) {
      var i :| 0 <= i < |crowd| && crowd[i] == pool;
      HostPrefix(i + 2);
    }
    forall i, j | 0 <= i < j < |crowd| ensures crowd[i].name != crowd[j].name && crowd[i].uid != crowd[j].uid && Disjoint(crowd[i], crowd[j]) {
      assert |crowd[i].name| != |crowd[j].name|;
      HostPoolsDisjoint(Tally(i + 1), Tally(i + 1), i + 2, Tally(j + 1), Tally(j + 1), j + 2);
    }
  }

  lemma {:induction false} ByNameSize(pools: seq<Pool>)
    requires forall i, j :: 0 <= i < j < |pools| ==> pools[i].name != pools[j].name
    ensures |ByName(pools)| == |pools|
  {
    hide Ordered;
    if pools != [] {
      var before, last := pools[..|pools| - 1], pools[|pools| - 1];
      ByNameSize(before);
      ByNameEntries(before);
      assert last.name !in ByName(before);
      assert ByName(pools).Keys == ByName(before).Keys + {last.name};
    }
  }

  /** Each of the crowd comes in beside the retained pool. */
  lemma {:induction false} CrowdIsAdmitted(s: State, a: string, uid: string, n: string)
    requires s.pools == map[a := HostPool(a, uid, 1)] && RetainedNames(s.leases) == {a} && |a| > 0 && a[0] != 't'
    requires n in ByName(Crowd(MAX_POOLS))
    ensures n in Admitted(s, ByName(Crowd(MAX_POOLS))) && n != a
  {
    hide Disjoint, RetainedNames, ByName, Crowd, HostPool;
    var i := CrowdMember(n);
    HostName(a, uid, 1);
    HostName(n, n, i + 2);
    HostPoolsDisjoint(a, uid, 1, n, n, i + 2);
  }

  /** Which member of the crowd a name is. */
  lemma {:induction false} CrowdMember(n: string) returns (i: nat)
    requires n in ByName(Crowd(MAX_POOLS))
    ensures i < MAX_POOLS && n == Tally(i + 1) && ByName(Crowd(MAX_POOLS))[n] == HostPool(n, n, i + 2)
  {
    var crowd := Crowd(MAX_POOLS);
    CrowdIsAccepted();
    AcceptedNames(crowd);
    hide AcceptedPools, Crowd, ByName;
    ByNameEntries(crowd);
    i :| 0 <= i < |crowd| && crowd[i].name == n;
    CrowdEntry(i);
    OrderedHost(Tally(i + 1), Tally(i + 1), i + 2);
  }

  lemma {:induction false} HostName(name: string, uid: string, value: nat)
    ensures HostPool(name, uid, value).name == name
  {
  }

  lemma {:induction false} CrowdEntry(i: nat)
    requires i < MAX_POOLS
    ensures |Crowd(MAX_POOLS)| == MAX_POOLS && Crowd(MAX_POOLS)[i] == HostPool(Tally(i + 1), Tally(i + 1), i + 2)
  {
  }

  lemma {:induction false} OrderedHost(name: string, uid: string, value: nat)
    ensures Ordered(HostPool(name, uid, value)) == HostPool(name, uid, value)
  {
    var prefixes := HostPool(name, uid, value).prefixes;
    assert Sort(prefixes, PrefixLess) == prefixes by { assert prefixes[1..] == []; }
  }

  /** The other way to be refused: a full pool list beside one retained pool. */
  lemma {:induction false} CrowdCanBlockRestore(a: string, uid: string, owner: Owner)
    requires ValidName(a) && ValidUid(uid) && a[0] != 't' && ValidOwner(owner)
    ensures NewState([HostPool(a, uid, 1)]).Some?
    ensures var w := Run(World(NewState([HostPool(a, uid, 1)]).value, []), [Allocate(HostRequest(owner, a)), Reconcile(Crowd(MAX_POOLS))]);
      Restored(CheckpointOf(w.state)) == None
  {
    hide Next, Run, Restored, CheckpointOf, Valid, Fenced, HostPool, HostRequest, Crowd;
    var w0 := World(State(map[a := HostPool(a, uid, 1)], map[], map[], 0, 0), []);
    HostPoolNormalizes(a, uid, 1);
    assert NewState([HostPool(a, uid, 1)]) == Some(w0.state);
    NewIsValid([HostPool(a, uid, 1)]);
    var w1 := Next(w0, Allocate(HostRequest(owner, a)));
    NextKeeps(w0, Allocate(HostRequest(owner, a)));
    HostGranted(w0, a, uid, 1, owner);
    CrowdRefused(w1, a, uid, owner);
    RunTwo(w0, Allocate(HostRequest(owner, a)), Reconcile(Crowd(MAX_POOLS)));
  }

  lemma {:induction false} CrowdRefused(w: World, a: string, uid: string, owner: Owner)
    requires |a| > 0 && a[0] != 't' && Valid(w.state) && w.state.pools == map[a := HostPool(a, uid, 1)]
    requires w.state.leases.Keys == {owner} && w.state.leases[owner].pool == Some(PoolRef(a, uid))
    ensures Restored(CheckpointOf(Next(w, Reconcile(Crowd(MAX_POOLS))).state)) == None
  {
    hide Valid, Restored, CheckpointOf, HostPool, Crowd, ByName, AcceptedPools, Merged;
    var crowd, s := Crowd(MAX_POOLS), w.state;
    assert RetainedNames(s.leases) == {a} by { assert owner in s.leases; }
    CrowdIsAccepted();
    AcceptedNames(crowd);
    ByNameSize(crowd);
    CrowdEntry(0);
    var desired := ByName(crowd);
    forall n | n in desired ensures n in Admitted(s, desired) && n != a { CrowdIsAdmitted(s, a, uid, n); }
    forall n | n in Admitted(s, desired) ensures n in desired { AdmittedIsDesired(s, desired, n); }
    hide Admitted, RetainedNames;
    assert Admitted(s, desired) == desired.Keys;
    assert |desired.Keys + {a}| == |desired.Keys| + 1;
    assert |desired.Keys| == |desired|;
    ReconcileThenRestore(s, crowd);
  }
}
