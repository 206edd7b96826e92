/** The allocator as the mutable object the controller holds. */
module EgressAllocators {
  import opened Results
  import opened Orders
  import opened Sorting
  import opened EgressPrefixes
  import opened EgressPools
  import opened EgressAllocation
  import opened EgressSafety

  lemma {:induction false} ClaimNext(owners: map<Ip, Owner>, addresses: seq<Ip>, owner: Owner, i: nat)
    requires i < |addresses|
    ensures Claim(owners, addresses[..i], owner)[addresses[i] := owner] == Claim(owners, addresses[..i + 1], owner)
  {
    assert addresses[..i + 1] == addresses[..i] + [addresses[i]];
  }

  lemma {:induction false} PrependAssociates(a: seq<Ip>, b: seq<Ip>, rest: Option<seq<Ip>>)
    ensures Prepend(a, Prepend(b, rest)) == Prepend(a + b, rest)
  {
    if rest.Some? { assert a + (b + rest.value) == a + b + rest.value; }
  }

  /** Takes the first free addresses of one family, reserving each before the next. */
  method TakeFamily(pool: Pool, family: Family, n: nat, held: set<Ip>) returns (taken: Option<seq<Ip>>, reserved: set<Ip>)
    requires AllCanonical(pool.prefixes)
    ensures taken == TakeMany(FamilyPrefixes(pool.prefixes, family), n, held)
    ensures taken.Some? ==> reserved == held + Elements(taken.value)
  {
    hide Scan, Canonical, FamilyPrefixes;
    ghost var prefixes := FamilyPrefixes(pool.prefixes, family);
    var got: seq<Ip> := [];
    reserved := held;
    assert TakeMany(prefixes, n, held) == Prepend([], TakeMany(prefixes, n, held)) by { PrependNothing(TakeMany(prefixes, n, held)); }
    for j := 0 to n
      invariant TakeMany(prefixes, n, held) == Prepend(got, TakeMany(prefixes, n - j, reserved))
      invariant reserved == held + Elements(got)
    {
      var ip := AllocateFromPool(pool, family, reserved);
      if ip.None? { return None, reserved; }
      PrependAssociates(got, [ip.value], TakeMany(prefixes, n - j - 1, reserved + {ip.value}));
      got, reserved := got + [ip.value], reserved + {ip.value};
    }
    assert got + [] == got;
    taken := Some(got);
  }

  lemma {:induction false} PrependNothing(rest: Option<seq<Ip>>)
    ensures Prepend([], rest) == rest
  {
    if rest.Some? { assert [] + rest.value == rest.value; }
  }

  /** Takes addresses of every requested family. */
  method TakeAll(pool: Pool, families: seq<Family>, perFamily: nat, held: set<Ip>) returns (taken: Option<seq<Ip>>)
    requires AllCanonical(pool.prefixes)
    ensures taken == TakeFamilies(pool, families, perFamily, held)
  {
    hide TakeMany, Canonical, FamilyPrefixes;
    var got: seq<Ip> := [];
    var reserved := held;
    PrependNothing(TakeFamilies(pool, families, perFamily, held));
    for i := 0 to |families|
      invariant TakeFamilies(pool, families, perFamily, held) == Prepend(got, TakeFamilies(pool, families[i..], perFamily, reserved))
    {
      var before := reserved;
      assert families[i..][0] == families[i] && families[i..][1..] == families[i + 1..];
      var some;
      some, reserved := TakeFamily(pool, families[i], perFamily, reserved);
      if some.None? { return None; }
      PrependAssociates(got, some.value, TakeFamilies(pool, families[i + 1..], perFamily, before + Elements(some.value)));
      got := got + some.value;
    }
    assert got + [] == got;
    taken := Some(got);
  }

  class EgressAllocator {
    var pools: map<string, Pool>
    var leases: map<Owner, Lease>
    var owners: map<Ip, Owner>
    var revision: nat
    var lastEpoch: nat

    function View(): State
      reads this
    {
      State(pools, leases, owners, revision, lastEpoch)
    }

    constructor (s: State)
      ensures View() == s
    {
      pools, leases, owners, revision, lastEpoch := s.pools, s.leases, s.owners, s.revision, s.lastEpoch;
    }

    /** Addresses for a request that passed validation. */
    method MakePlan(request: Request) returns (plan: Result<Plan, Error>)
      requires Valid(View())
      ensures (forall n :: n in View().pools ==> AllCanonical(View().pools[n].prefixes)) && plan == PlanAddresses(View(), request)
    {
      hide Valid, PoolSet, TakeFamilies, Canonical, Sort;
      ValidPools(View());
      CanonicalPools(pools);
      match request.intent.addresses
      case Explicit(addresses) =>
        for i := 0 to |addresses|
          invariant forall j :: 0 <= j < i ==> addresses[j] !in owners
        {
          if addresses[i] in owners { return Err(AddressConflict); }
        }
        plan := Ok(Plan(None, addresses));
      case FromPool(name, families, perFamily) =>
        if name !in pools { return Err(UnknownPool); }
        var pool := pools[name];
        var taken := TakeAll(pool, families, perFamily, owners.Keys);
        if taken.None? { return Err(Exhausted); }
        plan := Ok(Plan(Some(PoolRef(pool.name, pool.uid)), Sort(taken.value, IpLess)));
    }

    /** Files a granted lease and indexes its addresses. */
    method File(lease: Lease)
      modifies this
      ensures View() == State(old(pools), old(leases)[lease.intent.owner := lease],
                              Claim(old(owners), lease.addresses, lease.intent.owner), lease.revision, lease.epoch)
    {
      var i := 0;
      assert Claim(owners, lease.addresses[..0], lease.intent.owner) == owners;
      while i < |lease.addresses|
        invariant i <= |lease.addresses|
        invariant pools == old(pools) && leases == old(leases)
        invariant owners == Claim(old(owners), lease.addresses[..i], lease.intent.owner)
      {
        ClaimNext(old(owners), lease.addresses, lease.intent.owner, i);
        owners := owners[lease.addresses[i] := lease.intent.owner];
        i := i + 1;
      }
      assert lease.addresses[..i] == lease.addresses;
      leases, revision, lastEpoch := leases[lease.intent.owner := lease], lease.revision, lease.epoch;
    }

    /** Allocates or refreshes one intent; a failing call changes nothing. */
    method Allocate(request: Request) returns (r: Result<Lease, Error>)
      requires Valid(View())
      modifies this
      ensures Valid(View())
      ensures (forall n :: n in old(pools) ==> AllCanonical(old(pools)[n].prefixes))
      ensures var spec := Allocated(old(View()), request);
        && (spec.Ok? ==> View() == spec.value.0 && r == Ok(spec.value.1))
        && (spec.Err? ==> View() == old(View()) && r == Err(spec.error))
    {
      hide Valid, PlanAddresses, NormalRequest, Claim, AllCanonical;
      AllocateKeepsValid(View(), request);
      if request.epoch == 0 || request.revision == 0 { return Err(ZeroIntentRevision); }
      var intent := NormalIntent(request.intent);
      if intent.None? { return Err(InvalidModel); }
      var normal := request.(intent := intent.value);
      var provider := ProviderFor(View(), normal);
      if provider.Err? { return Err(provider.error); }
      var owner := normal.intent.owner;
      if owner in leases {
        var existing := leases[owner];
        if existing.intent.addresses != normal.intent.addresses || existing.provider != provider.value {
          return Err(ImmutableIntentChanged);
        }
        if normal.epoch < existing.intentEpoch || (normal.epoch == existing.intentEpoch && normal.revision < existing.intentRevision) {
          return Err(IntentRevisionRegression);
        }
        if normal.epoch == existing.intentEpoch && normal.revision == existing.intentRevision {
          return if normal.intent == existing.intent then Ok(existing) else Err(IntentRevisionMutation);
        }
        if revision == U64_MAX { return Err(CounterExhausted); }
        var refreshed := existing.(intent := normal.intent, intentEpoch := normal.epoch, intentRevision := normal.revision, revision := revision + 1);
        leases, revision := leases[owner := refreshed], revision + 1;
        return Ok(refreshed);
      }
      if |leases| == MAX_INTENTS { return Err(TooManyLeases); }
      var plan := MakePlan(normal);
      if plan.Err? { return Err(plan.error); }
      if revision == U64_MAX || lastEpoch == U64_MAX { return Err(CounterExhausted); }
      var lease := Lease(normal.intent, plan.value.pool, provider.value, plan.value.addresses,
                         lastEpoch + 1, normal.epoch, normal.revision, revision + 1);
      File(lease);
      r := Ok(lease);
    }

    /** Releases one owner; a failing call changes nothing. */
    method Release(owner: Owner) returns (r: Result<Lease, Error>)
      requires Valid(View())
      modifies this
      ensures Valid(View())
      ensures var spec := Released(old(View()), owner);
        && (spec.Ok? ==> View() == spec.value.0 && r == Ok(spec.value.1))
        && (spec.Err? ==> View() == old(View()) && r == Err(spec.error))
    {
      hide Valid;
      if revision == U64_MAX { return Err(CounterExhausted); }
      if owner !in leases { return Err(UnknownOwner); }
      ReleaseKeepsValid(View(), owner);
      var lease := leases[owner];
      leases := leases - {owner};
      var i := 0;
      while i < |lease.addresses|
        invariant i <= |lease.addresses|
        invariant pools == old(pools) && leases == old(leases) - {owner} && revision == old(revision) && lastEpoch == old(lastEpoch)
        invariant owners == old(owners) - Elements(lease.addresses[..i])
      {
        assert lease.addresses[..i + 1] == lease.addresses[..i] + [lease.addresses[i]];
        owners := owners - {lease.addresses[i]};
        i := i + 1;
      }
      assert lease.addresses[..i] == lease.addresses;
      revision := revision + 1;
      r := Ok(lease);
    }

    /** The names of the pools that still back a lease, one lease after another. */
    method Retained() returns (names: set<string>)
      ensures names == RetainedNames(leases)
    {
      names := {};
      var todo := leases.Keys;
      while todo != {}
        invariant todo <= leases.Keys
        invariant forall n :: n in names <==> exists o :: o in leases && o !in todo && leases[o].pool.Some? && leases[o].pool.value.name == n
        decreases |todo|
      {
        var o :| o in todo;
        if leases[o].pool.Some? { names := names + {leases[o].pool.value.name}; }
        todo := todo - {o};
      }
    }

    /** Adopts the desired pools, keeping every definition that still backs a lease. */
    method ReconcilePools(desired: seq<Pool>) returns (r: Result<bool, Error>)
      requires Valid(View())
      modifies this
      ensures Valid(View())
      ensures var spec := Reconciled(old(View()), desired);
        && (spec.Ok? ==> View() == spec.value.0 && r == Ok(spec.value.1))
        && (spec.Err? ==> View() == old(View()) && r == Err(spec.error))
    {
      hide Valid, NormalizePools, Merged, RetainedNames;
      var normal := NormalizePools(desired);
      if normal.None? { return Err(InvalidModel); }
      var retained := Retained();
      if exists n :: n in retained && n !in pools { return Err(ForeignLease); }
      ReconcileKeepsValid(View(), desired);
      var next := Merged(pools, retained, normal.value);
      var changed := next != pools;
      pools := next;
      r := Ok(changed);
    }

    /** An empty allocator over an accepted pool set. */
    static method New(pools: seq<Pool>) returns (r: Option<EgressAllocator>)
      ensures r.Some? <==> NewState(pools).Some?
      ensures r.Some? ==> fresh(r.value) && r.value.View() == NewState(pools).value
    {
      var normal := NormalizePools(pools);
      if normal.None? { return None; }
      var allocator := new EgressAllocator(State(normal.value, map[], map[], 0, 0));
      r := Some(allocator);
    }

    /** Checks and files one checkpointed lease. */
    method RefileLease(lease: Lease) returns (ok: bool)
      modifies this
      ensures ok <==> RestoreLease(old(View()), lease).Some?
      ensures ok ==> View() == RestoreLease(old(View()), lease).value
    {
      hide SoundLease, LeaseMatches, Claim;
      var owner := lease.intent.owner;
      if !SoundLease(lease, revision, lastEpoch) || owner in leases || !LeaseMatches(pools, lease) { return false; }
      var before := owners;
      var i := 0;
      assert Claim(owners, lease.addresses[..0], owner) == owners by { ClaimNothing(owners, lease.addresses[..0], owner); }
      SoundAddressesDiffer(lease, revision, lastEpoch);
      while i < |lease.addresses|
        invariant i <= |lease.addresses|
        invariant pools == old(pools) && leases == old(leases) && revision == old(revision) && lastEpoch == old(lastEpoch)
        invariant owners == Claim(before, lease.addresses[..i], owner)
        invariant forall j :: 0 <= j < i ==> lease.addresses[j] !in before
      {
        ClaimedKeys(before, lease.addresses, owner, i);
        if lease.addresses[i] in owners { return false; }
        ClaimNext(before, lease.addresses, owner, i);
        owners := owners[lease.addresses[i] := owner];
        i := i + 1;
      }
      assert lease.addresses[..i] == lease.addresses;
      leases := leases[owner := lease];
      ok := true;
    }

    /** Restores a checkpoint, or refuses it whole. */
    static method Restore(c: Checkpoint) returns (r: Option<EgressAllocator>)
      ensures r.Some? <==> Restored(c).Some?
      ensures r.Some? ==> fresh(r.value) && r.value.View() == Restored(c).value
    {
      hide RestoreLease, NormalizePools, OwnerLess;
      if c.schema != CHECKPOINT_SCHEMA || |c.leases| > MAX_INTENTS { return None; }
      if c.leases != [] && (c.revision == 0 || c.lastEpoch == 0) { return None; }
      var made := New(c.pools);
      if made.None? { return None; }
      var allocator := made.value;
      allocator.revision, allocator.lastEpoch := c.revision, c.lastEpoch;
      ghost var start := allocator.View();
      for i := 0 to |c.leases|
        invariant fresh(allocator)
        invariant RestoreLeases(start, c.leases) == RestoreLeases(allocator.View(), c.leases[i..])
      {
        assert c.leases[i..][0] == c.leases[i] && c.leases[i..][1..] == c.leases[i + 1..];
        var ok := allocator.RefileLease(c.leases[i]);
        if !ok { return None; }
      }
      var ordered := CheckOrder(c.leases);
      r := if ordered then Some(allocator) else None;
    }
  }

  method CheckOrder(leases: seq<Lease>) returns (ordered: bool)
    ensures ordered <==> InOwnerOrder(leases)
  {
    hide OwnerLess;
    OwnerOrder();
    if leases == [] { return true; }
    for i := 1 to |leases|
      invariant forall a, b :: 0 <= a < b < i && b < |leases| ==> OwnerLess(leases[a].intent.owner, leases[b].intent.owner)
    {
      if !OwnerLess(leases[i - 1].intent.owner, leases[i].intent.owner) { return false; }
      forall a | 0 <= a < i ensures OwnerLess(leases[a].intent.owner, leases[i].intent.owner) {
        if a < i - 1 { assert OwnerLess(leases[a].intent.owner, leases[i - 1].intent.owner); }
      }
    }
    ordered := true;
  }

  lemma {:induction false} ClaimNothing(owners: map<Ip, Owner>, none: seq<Ip>, owner: Owner)
    requires none == []
    ensures Claim(owners, none, owner) == owners
  {
  }

  lemma {:induction false} ClaimedKeys(owners: map<Ip, Owner>, addresses: seq<Ip>, owner: Owner, i: nat)
    requires i < |addresses| && forall j :: 0 <= j < i ==> addresses[j] != addresses[i]
    ensures addresses[i] in Claim(owners, addresses[..i], owner) <==> addresses[i] in owners
  {
  }

  lemma {:induction false} SoundAddressesDiffer(lease: Lease, revision: nat, lastEpoch: nat)
    requires SoundLease(lease, revision, lastEpoch)
    ensures forall i, j :: 0 <= i < j < |lease.addresses| ==> lease.addresses[i] != lease.addresses[j]
  {
    hide NormalIntent;
    AscendingByNeighbours(lease.addresses);
    IpOrder();
    forall i, j | 0 <= i < j < |lease.addresses| ensures lease.addresses[i] != lease.addresses[j] {
      assert IpLess(lease.addresses[i], lease.addresses[j]);
    }
  }
}
