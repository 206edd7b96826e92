/** Address pools: their validation, the candidate scan of one pool, and what the scan finds. */
module EgressPools {
  import opened Results
  import opened Sorting
  import opened Bits
  import opened EgressPrefixes

  const MAX_POOLS := 64
  const MAX_POOL_PREFIXES := 256
  const MAX_SCAN := 1_048_576

  datatype Provider = Provider(name: string, instance: string)

  datatype Pool = Pool(name: string, uid: string, provider: Provider, prefixes: seq<Prefix>)

  predicate ValidName(value: string) { 0 < |value| <= 253 }

  predicate ValidUid(value: string) { 0 < |value| <= 128 }

  predicate ValidProvider(provider: Provider) { ValidName(provider.name) && ValidUid(provider.instance) }

  predicate ValidPool(pool: Pool) {
    && ValidName(pool.name) && ValidUid(pool.uid) && ValidProvider(pool.provider)
    && 0 < |pool.prefixes| <= MAX_POOL_PREFIXES
    && (forall p :: p in pool.prefixes ==> Canonical(p))
    && (forall i, j :: 0 <= i < j < |pool.prefixes| ==> pool.prefixes[i] != pool.prefixes[j] && !Overlaps(pool.prefixes[i], pool.prefixes[j]))
  }

  predicate Disjoint(a: Pool, b: Pool) {
    forall p, q :: p in a.prefixes && q in b.prefixes ==> !Overlaps(p, q)
  }

  predicate AcceptedPools(pools: seq<Pool>) {
    && |pools| <= MAX_POOLS
    && (forall pool :: pool in pools ==> ValidPool(pool))
    && (forall i, j :: 0 <= i < j < |pools| ==>
          pools[i].name != pools[j].name && pools[i].uid != pools[j].uid && Disjoint(pools[i], pools[j]))
  }

  function Ordered(pool: Pool): Pool { pool.(prefixes := Sort(pool.prefixes, PrefixLess)) }

  function ByName(pools: seq<Pool>): map<string, Pool> {
    if pools == [] then map[] else ByName(pools[..|pools| - 1])[pools[|pools| - 1].name := Ordered(pools[|pools| - 1])]
  }

  /** Validates a pool set and orders each pool's prefixes. */
  function NormalizePools(pools: seq<Pool>): Option<map<string, Pool>> {
    if AcceptedPools(pools) then Some(ByName(pools)) else None
  }

  /** Pools the allocator may hold: valid, ordered, filed by name and pairwise disjoint. */
  ghost predicate PoolSet(pools: map<string, Pool>) {
    && (forall n :: n in pools ==> pools[n].name == n && ValidPool(pools[n]) && Sorted(pools[n].prefixes, PrefixLess))
    && (forall m, n :: m in pools && n in pools && m != n ==> Disjoint(pools[m], pools[n]))
  }

  lemma {:induction false} OrderedKeepsPool(pool: Pool)
    requires ValidPool(pool)
    ensures ValidPool(Ordered(pool)) && Sorted(Ordered(pool).prefixes, PrefixLess)
    ensures forall p :: p in Ordered(pool).prefixes <==> p in pool.prefixes
  {
    hide Canonical, Overlaps;
    PrefixOrder();
    SortSorts(pool.prefixes, PrefixLess);
    var sorted := Sort(pool.prefixes, PrefixLess);
    SameMembers(sorted, pool.prefixes);
    forall i, j | 0 <= i < j < |sorted| ensures sorted[i] != sorted[j] && !Overlaps(sorted[i], sorted[j]) {
      if sorted[i] == sorted[j] { TwiceInMultiset(pool.prefixes, sorted, i, j); }
      assert sorted[i] in sorted && sorted[j] in sorted;
      var a :| 0 <= a < |pool.prefixes| && pool.prefixes[a] == sorted[i];
      var b :| 0 <= b < |pool.prefixes| && pool.prefixes[b] == sorted[j];
      OverlapIsSymmetric(sorted[i], sorted[j]);
    }
  }

  lemma {:induction false} TwiceInMultiset(a: seq<Prefix>, b: seq<Prefix>, i: nat, j: nat)
    requires multiset(a) == multiset(b) && i < j < |b| && b[i] == b[j]
    ensures exists x, y :: 0 <= x < y < |a| && a[x] == a[y]
  {
    assert b == b[..i] + [b[i]] + b[i + 1..j] + [b[j]] + b[j + 1..];
    assert multiset(b)[b[i]] >= 2;
    Twice(a, b[i]);
  }

  lemma {:induction false} Twice(a: seq<Prefix>, p: Prefix)
    requires multiset(a)[p] >= 2
    ensures exists x, y :: 0 <= x < y < |a| && a[x] == a[y]
  {
    assert p in multiset(a);
    var x :| 0 <= x < |a| && a[x] == p;
    assert a == a[..x] + [a[x]] + a[x + 1..];
    assert multiset(a) == multiset(a[..x]) + multiset{p} + multiset(a[x + 1..]);
    if p in a[x + 1..] {
      var k :| 0 <= k < |a[x + 1..]| && a[x + 1..][k] == p;
      assert a[x] == a[x + 1 + k];
    } else {
      assert p in a[..x];
      var k :| 0 <= k < |a[..x]| && a[..x][k] == p;
      assert a[k] == a[x];
    }
  }

  lemma {:induction false} ByNameEntries(pools: seq<Pool>)
    requires forall i, j :: 0 <= i < j < |pools| ==> pools[i].name != pools[j].name
    ensures forall i :: 0 <= i < |pools| ==> pools[i].name in ByName(pools) && ByName(pools)[pools[i].name] == Ordered(pools[i])
    ensures forall n :: n in ByName(pools) ==> exists i :: 0 <= i < |pools| && pools[i].name == n
  {
    hide Ordered;
    if pools != [] {
      var before := pools[..|pools| - 1];
      ByNameEntries(before);
      forall i | 0 <= i < |pools| ensures pools[i].name in ByName(pools) && ByName(pools)[pools[i].name] == Ordered(pools[i]) {
        if i < |before| { assert before[i] == pools[i]; }
      }
      forall n | n in ByName(pools) ensures exists i :: 0 <= i < |pools| && pools[i].name == n {
        if n in ByName(before) {
          var i :| 0 <= i < |before| && before[i].name == n;
          assert pools[i].name == n;
        }
      }
    }
  }

  lemma {:induction false} DisjointOrdered(a: Pool, b: Pool)
    requires ValidPool(a) && ValidPool(b) && (Disjoint(a, b) || Disjoint(b, a))
    ensures Disjoint(Ordered(a), Ordered(b))
  {
    hide ValidPool, Ordered, Overlaps;
    OrderedKeepsPool(a);
    OrderedKeepsPool(b);
    forall p, q | p in Ordered(a).prefixes && q in Ordered(b).prefixes ensures !Overlaps(p, q) {
      OverlapIsSymmetric(p, q);
    }
  }

  /** Normalization yields a pool set. */
  lemma {:induction false} NormalizedIsPoolSet(pools: seq<Pool>)
    requires AcceptedPools(pools)
    ensures PoolSet(ByName(pools))
  {
    hide ValidPool, Ordered, Disjoint;
    ByNameEntries(pools);
    var named := ByName(pools);
    forall n | n in named ensures named[n].name == n && ValidPool(named[n]) && Sorted(named[n].prefixes, PrefixLess) {
      var i :| 0 <= i < |pools| && pools[i].name == n;
      OrderedKeepsPool(pools[i]);
      OrderedName(pools[i]);
    }
    forall m, n | m in named && n in named && m != n ensures Disjoint(named[m], named[n]) {
      var i :| 0 <= i < |pools| && pools[i].name == m;
      var j :| 0 <= j < |pools| && pools[j].name == n;
      DisjointOrdered(pools[i], pools[j]);
    }
  }

  lemma {:induction false} OrderedName(pool: Pool)
    ensures Ordered(pool).name == pool.name && Ordered(pool).uid == pool.uid && Ordered(pool).provider == pool.provider
  {
  }

  /** How many candidates a prefix has. */
  function CandidateCount(p: Prefix): (n: nat)
    requires Canonical(p)
  {
    if p.address.V6? && p.HostBits() == 128 then INDEX_RANGE
    else if UsableCount(p) < INDEX_RANGE then UsableCount(p) else INDEX_RANGE
  }

  lemma {:induction false} CandidateExists(p: Prefix, index: nat)
    requires Canonical(p)
    ensures Candidate(p, index).Some? <==> index < CandidateCount(p)
  {
    hide Pow2, Truncate;
  }

  predicate AllCanonical(prefixes: seq<Prefix>) { forall p :: p in prefixes ==> Canonical(p) }

  /** The k-th address of the prefixes' candidate sequences, concatenated. */
  function Nth(prefixes: seq<Prefix>, k: nat): Option<Ip>
    requires AllCanonical(prefixes)
    decreases |prefixes|
  {
    if prefixes == [] then None
    else if k < CandidateCount(prefixes[0]) then Candidate(prefixes[0], k)
    else Nth(prefixes[1..], k - CandidateCount(prefixes[0]))
  }

  function FamilyPrefixes(prefixes: seq<Prefix>, family: Family): (r: seq<Prefix>)
    ensures forall p :: p in r ==> p in prefixes && p.address.Family() == family
  {
    if prefixes == [] then []
    else (if prefixes[0].address.Family() == family then [prefixes[0]] else []) + FamilyPrefixes(prefixes[1..], family)
  }

  /** The scan: candidates of the first prefix from `index`, then of the others, at most
      `budget` in all. */
  function Scan(prefixes: seq<Prefix>, reserved: set<Ip>, index: nat, budget: nat): Option<Ip>
    requires AllCanonical(prefixes)
    decreases |prefixes|, budget
  {
    if prefixes == [] || budget == 0 then None
    else match Candidate(prefixes[0], index)
      case None => Scan(prefixes[1..], reserved, 0, budget)
      case Some(ip) => if ip !in reserved then Some(ip) else Scan(prefixes, reserved, index + 1, budget - 1)
  }

  /** The k-th candidate exists and is reserved. */
  predicate Held(prefixes: seq<Prefix>, reserved: set<Ip>, k: nat)
    requires AllCanonical(prefixes)
  {
    Nth(prefixes, k).Some? && Nth(prefixes, k).value in reserved
  }

  /** The k-th candidate is the first unreserved one from `start` on. */
  ghost predicate FirstFree(prefixes: seq<Prefix>, reserved: set<Ip>, start: nat, k: nat, found: Ip)
    requires AllCanonical(prefixes)
  {
    Nth(prefixes, k) == Some(found) && found !in reserved && forall j :: start <= j < k ==> Held(prefixes, reserved, j)
  }

  /** Every candidate of the stretch is reserved; past the last candidate there is nothing. */
  ghost predicate AllHeld(prefixes: seq<Prefix>, reserved: set<Ip>, start: nat, end: nat)
    requires AllCanonical(prefixes)
  {
    forall k :: start <= k < end ==> Nth(prefixes, k).None? || Held(prefixes, reserved, k)
  }

  lemma {:induction false} NthOfRest(prefixes: seq<Prefix>, reserved: set<Ip>, k: nat)
    requires AllCanonical(prefixes) && prefixes != []
    ensures var past := CandidateCount(prefixes[0]) + k;
      && Nth(prefixes, past) == Nth(prefixes[1..], k)
      && Held(prefixes, reserved, past) == Held(prefixes[1..], reserved, k)
  {
    hide CandidateCount, Candidate, Canonical;
  }

  /** The scan finds the first unreserved entry of the concatenated sequence cut at the
      budget, and gives up only when that whole cut is reserved. */
  lemma {:induction false} ScanFindsFirst(prefixes: seq<Prefix>, reserved: set<Ip>, index: nat, budget: nat)
    requires AllCanonical(prefixes) && (prefixes != [] ==> index <= CandidateCount(prefixes[0]))
    ensures var found := Scan(prefixes, reserved, index, budget);
      && (found.Some? ==> exists k :: index <= k < index + budget && FirstFree(prefixes, reserved, index, k, found.value))
      && (found.None? ==> AllHeld(prefixes, reserved, index, index + budget))
    decreases |prefixes|, budget
  {
    hide CandidateCount, Candidate, Canonical;
    if prefixes != [] && budget > 0 {
      CandidateExists(prefixes[0], index);
      if index < CandidateCount(prefixes[0]) {
        var ip := Candidate(prefixes[0], index).value;
        assert Nth(prefixes, index) == Some(ip);
        if ip !in reserved {
          assert FirstFree(prefixes, reserved, index, index, ip);
        } else {
          assert Held(prefixes, reserved, index);
          ScanFindsFirst(prefixes, reserved, index + 1, budget - 1);
          var found := Scan(prefixes, reserved, index + 1, budget - 1);
          if found.Some? {
            var k :| index + 1 <= k < index + budget && FirstFree(prefixes, reserved, index + 1, k, found.value);
            assert FirstFree(prefixes, reserved, index, k, found.value);
          }
        }
      } else {
        ScanFindsFirst(prefixes[1..], reserved, 0, budget);
        LiftRest(prefixes, reserved, budget, Scan(prefixes[1..], reserved, 0, budget));
      }
    }
  }

  /** What the scan of the later prefixes found, seen from the whole sequence. */
  lemma {:induction false} LiftRest(prefixes: seq<Prefix>, reserved: set<Ip>, budget: nat, found: Option<Ip>)
    requires AllCanonical(prefixes) && prefixes != []
    requires found.Some? ==> exists k :: 0 <= k < budget && FirstFree(prefixes[1..], reserved, 0, k, found.value)
    requires found.None? ==> AllHeld(prefixes[1..], reserved, 0, budget)
    ensures var c := CandidateCount(prefixes[0]);
      && (found.Some? ==> exists k :: c <= k < c + budget && FirstFree(prefixes, reserved, c, k, found.value))
      && (found.None? ==> AllHeld(prefixes, reserved, c, c + budget))
  {
    hide CandidateCount, Candidate, Canonical, Nth, Held;
    var c := CandidateCount(prefixes[0]);
    forall k: nat ensures Nth(prefixes, c + k) == Nth(prefixes[1..], k) && Held(prefixes, reserved, c + k) == Held(prefixes[1..], reserved, k) {
      NthOfRest(prefixes, reserved, k);
    }
    if found.Some? {
      var k :| 0 <= k < budget && FirstFree(prefixes[1..], reserved, 0, k, found.value);
      forall j | c <= j < c + k ensures Held(prefixes, reserved, j) {
        assert Held(prefixes[1..], reserved, j - c);
      }
      assert FirstFree(prefixes, reserved, c, c + k, found.value);
    } else {
      forall k | c <= k < c + budget ensures Nth(prefixes, k).None? || Held(prefixes, reserved, k) {
        assert Nth(prefixes[1..], k - c).None? || Held(prefixes[1..], reserved, k - c);
      }
    }
  }

  /** Scans one pool for an address of the family that nobody holds. */
  method AllocateFromPool(pool: Pool, family: Family, reserved: set<Ip>) returns (found: Option<Ip>)
    requires AllCanonical(pool.prefixes)
    ensures found == Scan(FamilyPrefixes(pool.prefixes, family), reserved, 0, MAX_SCAN)
  {
    hide Candidate, Canonical, FamilyPrefixes;
    var prefixes := FamilyPrefixes(pool.prefixes, family);
    var scanned := 0;
    var i := 0;
    while i < |prefixes|
      invariant i <= |prefixes| && scanned <= MAX_SCAN
      invariant Scan(prefixes, reserved, 0, MAX_SCAN) == Scan(prefixes[i..], reserved, 0, MAX_SCAN - scanned)
    {
      var index := 0;
      while scanned < MAX_SCAN
        invariant scanned <= MAX_SCAN
        invariant Scan(prefixes, reserved, 0, MAX_SCAN) == Scan(prefixes[i..], reserved, index, MAX_SCAN - scanned)
      {
        var candidate := Candidate(prefixes[i], index);
        if candidate.None? { break; }
        if candidate.value !in reserved { return candidate; }
        index, scanned := index + 1, scanned + 1;
      }
      assert prefixes[i..][1..] == prefixes[i + 1..];
      i := i + 1;
    }
    return None;
  }
}
