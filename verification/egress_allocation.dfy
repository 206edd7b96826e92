/** The egress address allocator: leases, their inverse address index, retained pools and
    the durable checkpoint. */
module EgressAllocation {
  import opened Results
  import opened Orders
  import opened Sorting
  import opened EgressPrefixes
  import opened EgressPools

  const CHECKPOINT_SCHEMA := 1
  const MAX_INTENTS := 4096
  const MAX_ADDRESSES := 16
  const U64_MAX := 0xFFFF_FFFF_FFFF_FFFF

  /** A cluster owner has no namespace. */
  datatype Owner = Owner(namespace: Option<string>, name: string, uid: string)

  predicate OwnerLess(a: Owner, b: Owner) {
    if a.namespace != b.namespace then
      a.namespace.None? || (b.namespace.Some? && StringLess(a.namespace.value, b.namespace.value))
    else StringLess(a.name, b.name) || (a.name == b.name && StringLess(a.uid, b.uid))
  }

  lemma {:induction false} OwnerOrder()
    ensures StrictTotal(OwnerLess)
  {
    hide StringLess;
    StringOrder();
    forall a, b, c | OwnerLess(a, b) && OwnerLess(b, c) ensures OwnerLess(a, c) {
    }
  }

  datatype AddressRequest = FromPool(name: string, families: seq<Family>, perFamily: nat) | Explicit(addresses: seq<Ip>)

  /** `policy` stands for priority, selectors and destinations in normal form. */
  datatype Intent = Intent(owner: Owner, policy: nat, addresses: AddressRequest)

  datatype Request = Request(intent: Intent, provider: Option<Provider>, epoch: nat, revision: nat)

  datatype PoolRef = PoolRef(name: string, uid: string)

  datatype Lease = Lease(intent: Intent, pool: Option<PoolRef>, provider: Provider, addresses: seq<Ip>,
                         epoch: nat, intentEpoch: nat, intentRevision: nat, revision: nat)

  datatype Error =
    | UnsupportedSchema | InvalidModel | ZeroIntentRevision | TooManyLeases | InvalidProvider | UnknownPool
    | ImmutableIntentChanged | IntentRevisionRegression | IntentRevisionMutation | AddressConflict
    | Exhausted | ForeignLease | UnknownOwner | CounterExhausted

  datatype State = State(pools: map<string, Pool>, leases: map<Owner, Lease>, owners: map<Ip, Owner>, revision: nat, lastEpoch: nat)

  predicate ValidOwner(owner: Owner) {
    ValidName(owner.name) && ValidUid(owner.uid) && (owner.namespace.Some? ==> ValidName(owner.namespace.value))
  }

  /** Families sorted and without repeats. */
  function NormalFamilies(families: seq<Family>): seq<Family> {
    (if Ipv4 in families then [Ipv4] else []) + (if Ipv6 in families then [Ipv6] else [])
  }

  function NormalRequest(request: AddressRequest): Option<AddressRequest> {
    match request
    case FromPool(name, families, perFamily) =>
      if ValidName(name) && families != [] && 1 <= perFamily <= MAX_ADDRESSES
      then Some(FromPool(name, NormalFamilies(families), perFamily)) else None
    case Explicit(addresses) =>
      var sorted := Sort(addresses, IpLess);
      if 0 < |addresses| <= MAX_ADDRESSES
         && (forall i :: 0 <= i < |sorted| - 1 ==> sorted[i] != sorted[i + 1])
         && (forall ip :: ip in sorted ==> ip.value != 0)
      then Some(Explicit(sorted)) else None
  }

  function NormalIntent(intent: Intent): Option<Intent> {
    var addresses := NormalRequest(intent.addresses);
    if ValidOwner(intent.owner) && addresses.Some? then Some(intent.(addresses := addresses.value)) else None
  }

  /** Strictly ascending addresses, as a windowed check of neighbours decides it. */
  predicate StrictlyAscending(addresses: seq<Ip>) {
    forall i :: 0 <= i < |addresses| - 1 ==> IpLess(addresses[i], addresses[i + 1])
  }

  function CountFamily(addresses: seq<Ip>, family: Family): nat {
    if addresses == [] then 0 else (if addresses[0].Family() == family then 1 else 0) + CountFamily(addresses[1..], family)
  }

  predicate LeaseMatches(pools: map<string, Pool>, lease: Lease) {
    match lease.intent.addresses
    case Explicit(addresses) => lease.pool.None? && lease.addresses == addresses
    case FromPool(name, families, perFamily) =>
      && name in pools
      && lease.pool == Some(PoolRef(pools[name].name, pools[name].uid))
      && lease.provider == pools[name].provider
      && |lease.addresses| == |families| * perFamily
      && (forall f :: f in families ==> CountFamily(lease.addresses, f) == perFamily)
      && (forall ip :: ip in lease.addresses ==> exists p :: p in pools[name].prefixes && Usable(p, ip))
  }

  /** What a restored lease must satisfy on its own. */
  predicate SoundLease(lease: Lease, revision: nat, lastEpoch: nat) {
    && NormalIntent(lease.intent) == Some(lease.intent)
    && lease.intentEpoch != 0 && lease.intentRevision != 0
    && 0 < lease.revision <= revision && 0 < lease.epoch <= lastEpoch
    && 0 < |lease.addresses| <= 2 * MAX_ADDRESSES
    && StrictlyAscending(lease.addresses)
    && ValidProvider(lease.provider)
  }

  /** `owners` is the exact inverse of the leases' address lists. */
  ghost predicate Inverse(leases: map<Owner, Lease>, owners: map<Ip, Owner>) {
    && (forall ip :: ip in owners ==> owners[ip] in leases && ip in leases[owners[ip]].addresses)
    && (forall o, ip :: o in leases && ip in leases[o].addresses ==> ip in owners && owners[ip] == o)
  }

  /** One lease of the state, filed under its owner and still what its request asks for. */
  ghost predicate LeaseValid(s: State, o: Owner)
    requires o in s.leases
  {
    s.leases[o].intent.owner == o && SoundLease(s.leases[o], s.revision, s.lastEpoch) && LeaseMatches(s.pools, s.leases[o])
  }

  ghost predicate LeasesValid(s: State) {
    forall o :: o in s.leases ==> LeaseValid(s, o)
  }

  ghost predicate EpochsDiffer(leases: map<Owner, Lease>) {
    forall a, b :: a in leases && b in leases && a != b ==> leases[a].epoch != leases[b].epoch
  }

  ghost predicate Valid(s: State) {
    && PoolSet(s.pools)
    && |s.leases| <= MAX_INTENTS
    && LeasesValid(s)
    && Inverse(s.leases, s.owners)
    && EpochsDiffer(s.leases)
    && s.revision <= U64_MAX && s.lastEpoch <= U64_MAX
  }

  function NewState(pools: seq<Pool>): Option<State> {
    var normal := NormalizePools(pools);
    if normal.None? then None else Some(State(normal.value, map[], map[], 0, 0))
  }

  function ProviderFor(s: State, request: Request): Result<Provider, Error> {
    match request.intent.addresses
    case FromPool(name, _, _) =>
      if request.provider.Some? then Err(InvalidProvider)
      else if name in s.pools then Ok(s.pools[name].provider) else Err(UnknownPool)
    case Explicit(_) =>
      if request.provider.Some? && ValidProvider(request.provider.value) then Ok(request.provider.value) else Err(InvalidProvider)
  }

  function Prepend(first: seq<Ip>, rest: Option<seq<Ip>>): Option<seq<Ip>> {
    if rest.None? then None else Some(first + rest.value)
  }

  function TakeMany(prefixes: seq<Prefix>, n: nat, reserved: set<Ip>): Option<seq<Ip>>
    requires AllCanonical(prefixes)
    decreases n
  {
    if n == 0 then Some([])
    else
      var ip := Scan(prefixes, reserved, 0, MAX_SCAN);
      if ip.None? then None else Prepend([ip.value], TakeMany(prefixes, n - 1, reserved + {ip.value}))
  }

  function TakeFamilies(pool: Pool, families: seq<Family>, perFamily: nat, reserved: set<Ip>): Option<seq<Ip>>
    requires AllCanonical(pool.prefixes)
    decreases |families|
  {
    if families == [] then Some([])
    else
      var taken := TakeMany(FamilyPrefixes(pool.prefixes, families[0]), perFamily, reserved);
      if taken.None? then None
      else Prepend(taken.value, TakeFamilies(pool, families[1..], perFamily, reserved + Elements(taken.value)))
  }

  datatype Plan = Plan(pool: Option<PoolRef>, addresses: seq<Ip>)

  function PlanAddresses(s: State, request: Request): Result<Plan, Error>
    requires forall n :: n in s.pools ==> AllCanonical(s.pools[n].prefixes)
  {
    match request.intent.addresses
    case Explicit(addresses) =>
      if exists ip :: ip in addresses && ip in s.owners then Err(AddressConflict) else Ok(Plan(None, addresses))
    case FromPool(name, families, perFamily) =>
      if name !in s.pools then Err(UnknownPool)
      else
        var pool := s.pools[name];
        var taken := TakeFamilies(pool, families, perFamily, s.owners.Keys);
        if taken.None? then Err(Exhausted) else Ok(Plan(Some(PoolRef(pool.name, pool.uid)), Sort(taken.value, IpLess)))
  }

  /** Every address of the list now belongs to the owner. */
  function Claim(owners: map<Ip, Owner>, addresses: seq<Ip>, owner: Owner): map<Ip, Owner> {
    map ip | ip in owners.Keys + Elements(addresses) :: if ip in addresses then owner else owners[ip]
  }

  /** A held owner's lease may only be refreshed by a later intent for the same addresses. */
  function Refresh(s: State, existing: Lease, request: Request, provider: Provider): Result<(State, Lease), Error> {
    if existing.intent.addresses != request.intent.addresses || existing.provider != provider then Err(ImmutableIntentChanged)
    else if request.epoch < existing.intentEpoch || (request.epoch == existing.intentEpoch && request.revision < existing.intentRevision) then
      Err(IntentRevisionRegression)
    else if request.epoch == existing.intentEpoch && request.revision == existing.intentRevision then
      if request.intent == existing.intent then Ok((s, existing)) else Err(IntentRevisionMutation)
    else if s.revision == U64_MAX then Err(CounterExhausted)
    else
      var lease := existing.(intent := request.intent, intentEpoch := request.epoch, intentRevision := request.revision, revision := s.revision + 1);
      Ok((s.(leases := s.leases[request.intent.owner := lease], revision := s.revision + 1), lease))
  }

  function Grant(s: State, request: Request, provider: Provider, plan: Plan): Result<(State, Lease), Error> {
    if s.revision == U64_MAX || s.lastEpoch == U64_MAX then Err(CounterExhausted)
    else
      var owner := request.intent.owner;
      var lease := Lease(request.intent, plan.pool, provider, plan.addresses, s.lastEpoch + 1, request.epoch, request.revision, s.revision + 1);
      Ok((State(s.pools, s.leases[owner := lease], Claim(s.owners, plan.addresses, owner), s.revision + 1, s.lastEpoch + 1), lease))
  }

  function Allocated(s: State, request: Request): Result<(State, Lease), Error>
    requires forall n :: n in s.pools ==> AllCanonical(s.pools[n].prefixes)
  {
    if request.epoch == 0 || request.revision == 0 then Err(ZeroIntentRevision)
    else if NormalIntent(request.intent).None? then Err(InvalidModel)
    else
      var normal := request.(intent := NormalIntent(request.intent).value);
      var provider := ProviderFor(s, normal);
      if provider.Err? then Err(provider.error)
      else if normal.intent.owner in s.leases then Refresh(s, s.leases[normal.intent.owner], normal, provider.value)
      else if |s.leases| == MAX_INTENTS then Err(TooManyLeases)
      else
        var plan := PlanAddresses(s, normal);
        if plan.Err? then Err(plan.error) else Grant(s, normal, provider.value, plan.value)
  }

  function Released(s: State, owner: Owner): Result<(State, Lease), Error> {
    if s.revision == U64_MAX then Err(CounterExhausted)
    else if owner !in s.leases then Err(UnknownOwner)
    else
      var lease := s.leases[owner];
      Ok((s.(leases := s.leases - {owner}, owners := s.owners - Elements(lease.addresses), revision := s.revision + 1), lease))
  }

  /** The pools that still back a lease. */
  function RetainedNames(leases: map<Owner, Lease>): set<string> {
    set o | o in leases && leases[o].pool.Some? :: leases[o].pool.value.name
  }

  predicate Admissible(current: map<string, Pool>, retained: set<string>, candidate: Pool) {
    forall n :: n in retained && n in current ==>
      if n == candidate.name then current[n] == candidate else Disjoint(current[n], candidate)
  }

  function Merged(current: map<string, Pool>, retained: set<string>, desired: map<string, Pool>): map<string, Pool> {
    (map n | n in desired && Admissible(current, retained, desired[n]) :: desired[n]) + (map n | n in retained && n in current :: current[n])
  }

  function Reconciled(s: State, pools: seq<Pool>): Result<(State, bool), Error> {
    var desired := NormalizePools(pools);
    if desired.None? then Err(InvalidModel)
    else if exists n :: n in RetainedNames(s.leases) && n !in s.pools then Err(ForeignLease)
    else
      var next := Merged(s.pools, RetainedNames(s.leases), desired.value);
      Ok((s.(pools := next), next != s.pools))
  }

  datatype Checkpoint = Checkpoint(schema: nat, revision: nat, lastEpoch: nat, pools: seq<Pool>, leases: seq<Lease>)

  function RestoreLease(s: State, lease: Lease): Option<State> {
    var owner := lease.intent.owner;
    if !SoundLease(lease, s.revision, s.lastEpoch) || owner in s.leases || !LeaseMatches(s.pools, lease) then None
    else if exists ip :: ip in lease.addresses && ip in s.owners then None
    else Some(s.(leases := s.leases[owner := lease], owners := Claim(s.owners, lease.addresses, owner)))
  }

  function RestoreLeases(s: State, leases: seq<Lease>): Option<State>
    decreases |leases|
  {
    if leases == [] then Some(s)
    else
      var next := RestoreLease(s, leases[0]);
      if next.None? then None else RestoreLeases(next.value, leases[1..])
  }

  /** Leases listed in owner order, as iterating the restored map lists them. */
  ghost predicate InOwnerOrder(leases: seq<Lease>) {
    forall i, j :: 0 <= i < j < |leases| ==> OwnerLess(leases[i].intent.owner, leases[j].intent.owner)
  }

  ghost function Restored(c: Checkpoint): Option<State> {
    if c.schema != CHECKPOINT_SCHEMA || |c.leases| > MAX_INTENTS then None
    else if c.leases != [] && (c.revision == 0 || c.lastEpoch == 0) then None
    else
      var fresh_ := NewState(c.pools);
      if fresh_.None? then None
      else
        var s := RestoreLeases(fresh_.value.(revision := c.revision, lastEpoch := c.lastEpoch), c.leases);
        if s.Some? && InOwnerOrder(c.leases) then s else None
  }

  ghost function SortedOwners(leases: map<Owner, Lease>): seq<Owner> {
    OwnerOrder();
    Ascend(leases.Keys, OwnerLess)
  }

  ghost function SortedNames(pools: map<string, Pool>): seq<string> {
    StringOrder();
    Ascend(pools.Keys, StringLess)
  }

  lemma {:induction false} SortedMembers<T(!new)>(keys: set<T>, lt: (T, T) -> bool)
    requires StrictTotal(lt)
    ensures forall k :: k in Ascend(keys, lt) <==> k in keys
  {
    assert forall k :: k in Ascend(keys, lt) <==> k in Elements(Ascend(keys, lt));
  }

  ghost function PoolList(pools: map<string, Pool>): seq<Pool> {
    var names := SortedNames(pools);
    StringOrder();
    SortedMembers(pools.Keys, StringLess);
    seq(|names|, i requires 0 <= i < |names| => assert names[i] in pools; pools[names[i]])
  }

  ghost function LeaseList(leases: map<Owner, Lease>): seq<Lease> {
    var owners := SortedOwners(leases);
    OwnerOrder();
    SortedMembers(leases.Keys, OwnerLess);
    seq(|owners|, i requires 0 <= i < |owners| => assert owners[i] in leases; leases[owners[i]])
  }

  ghost function CheckpointOf(s: State): Checkpoint {
    Checkpoint(CHECKPOINT_SCHEMA, s.revision, s.lastEpoch, PoolList(s.pools), LeaseList(s.leases))
  }
}
