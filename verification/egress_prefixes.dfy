/** IPv4 and IPv6 prefixes, the addresses a pool may hand out of one, and their order. */
module EgressPrefixes {
  import opened Results
  import opened Orders
  import opened Sorting
  import opened Bits

  datatype Family = Ipv4 | Ipv6

  datatype Ip = V4(value: nat) | V6(value: nat) {
    function Family(): Family { if V4? then Ipv4 else Ipv6 }
    function Width(): nat { if V4? then 32 else 128 }
    predicate Valid() { value < Pow2(Width()) }
  }

  predicate IpLess(a: Ip, b: Ip) {
    if a.V4? then b.V6? || a.value < b.value else b.V6? && a.value < b.value
  }

  lemma {:induction false} IpOrder()
    ensures StrictTotal(IpLess) && StrictWeak(IpLess)
  {
  }

  function IpOf(family: Family, value: nat): (ip: Ip) {
    match family
    case Ipv4 => V4(value)
    case Ipv6 => V6(value)
  }

  datatype Prefix = Prefix(address: Ip, length: nat) {
    function HostBits(): nat
      requires length <= address.Width()
    {
      address.Width() - length
    }

    function Size(): nat
      requires length <= address.Width()
    {
      Pow2(HostBits())
    }
  }

  predicate PrefixLess(a: Prefix, b: Prefix) {
    IpLess(a.address, b.address) || (a.address == b.address && a.length < b.length)
  }

  lemma {:induction false} PrefixOrder()
    ensures StrictTotal(PrefixLess) && StrictWeak(PrefixLess)
  {
  }

  /** A value with its low `bits` cleared: what masking with a network mask computes. */
  function Truncate(value: int, bits: nat): int {
    value - value % Pow2(bits)
  }

  predicate Canonical(p: Prefix) {
    p.address.Valid() && p.length <= p.address.Width() && Truncate(p.address.value, p.HostBits()) == p.address.value
  }

  predicate Contains(p: Prefix, ip: Ip) {
    p.address.Family() == ip.Family() && p.length <= ip.Width() && Truncate(ip.value, p.HostBits()) == p.address.value
  }

  predicate Overlaps(p: Prefix, q: Prefix) {
    p.address.Family() == q.address.Family() && (Contains(p, q.address) || Contains(q, p.address))
  }

  lemma {:induction false} MulGap(m: nat, a: nat, b: nat)
    requires a < b
    ensures m * a + m <= m * b
    decreases b
  {
    var c := b - 1;
    assert m * b == m * c + m;
    if a < c { MulGap(m, a, c); }
  }

  lemma {:induction false} DivMod(m: nat, q: nat, r: nat)
    requires r < m
    ensures (m * q + r) / m == q && (m * q + r) % m == r
  {
    var d, rest := (m * q + r) / m, (m * q + r) % m;
    assert m * q + r == m * d + rest && rest < m;
    if d < q { MulGap(m, d, q); }
    if q < d { MulGap(m, q, d); }
  }

  lemma {:induction false} AlignedBlock(value: nat, net: nat, m: nat)
    requires m > 0 && net % m == 0
    ensures value - value % m == net <==> net <= value < net + m
  {
    assert net == m * (net / m);
    if net <= value < net + m { DivMod(m, net / m, value - net); }
  }

  /** A canonical prefix contains exactly the block that starts at its address. */
  lemma {:induction false} ContainsIsBlock(p: Prefix, ip: Ip)
    requires Canonical(p)
    ensures Contains(p, ip) <==>
      p.address.Family() == ip.Family() && p.address.value <= ip.value < p.address.value + p.Size()
  {
    if p.address.Family() == ip.Family() {
      AlignedBlock(ip.value, p.address.value, p.Size());
    }
  }

  lemma {:induction false} Pow2Sum(a: nat, b: nat)
    ensures Pow2(a + b) == Pow2(a) * Pow2(b)
  {
    if b > 0 {
      Pow2Sum(a, b - 1);
      assert Pow2(a + b) == 2 * Pow2(a + (b - 1));
    }
  }

  lemma {:induction false} Associate(a: int, b: int, c: int)
    ensures a * (b * c) == (a * b) * c
  {
  }

  lemma {:induction false} Distribute(a: int, b: int, c: int)
    ensures a * (b + c) == a * b + a * c
  {
  }

  lemma {:induction false} ModOfMultiple(m: nat, k: nat, q: nat, r: nat)
    requires m > 0 && k > 0 && r < m
    ensures m * k > 0 && (m * q + r) % (m * k) == m * (q % k) + r
  {
    var d, e := q / k, q % k;
    assert q == k * d + e;
    Distribute(m, k * d, e);
    Associate(m, k, d);
    MulGap(m, e, k);
    DivMod(m * k, d, m * e + r);
  }

  /** Clearing fewer low bits first changes nothing. */
  lemma {:induction false} ClearTwice(value: nat, m: nat, k: nat)
    requires m > 0 && k > 0
    ensures m * k > 0
    ensures var low := value - value % m; low >= 0 && low - low % (m * k) == value - value % (m * k)
  {
    var q, r := value / m, value % m;
    assert value == m * q + r;
    ModOfMultiple(m, k, q, r);
    ModOfMultiple(m, k, q, 0);
  }

  lemma {:induction false} TruncateTower(value: nat, few: nat, many: nat)
    requires few <= many
    ensures Truncate(Truncate(value, few), many) == Truncate(value, many)
  {
    hide Pow2;
    Pow2Sum(few, many - few);
    ClearTwice(value, Pow2(few), Pow2(many - few));
  }

  lemma {:induction false} CanonicalContainsItself(p: Prefix)
    requires Canonical(p)
    ensures Contains(p, p.address)
  {
  }

  lemma {:induction false} WiderContains(p: Prefix, q: Prefix, ip: Ip)
    requires Canonical(p) && Canonical(q) && Contains(p, ip) && Contains(q, ip) && p.length <= q.length
    ensures Contains(p, q.address)
  {
    TruncateTower(ip.value, q.HostBits(), p.HostBits());
  }

  /** The overlap test decides whether two canonical prefixes share an address. */
  lemma {:induction false} OverlapIsSharedAddress(p: Prefix, q: Prefix)
    requires Canonical(p) && Canonical(q)
    ensures Overlaps(p, q) <==> exists ip: Ip :: ip.Valid() && Contains(p, ip) && Contains(q, ip)
  {
    CanonicalContainsItself(p);
    CanonicalContainsItself(q);
    if ip: Ip :| ip.Valid() && Contains(p, ip) && Contains(q, ip) {
      if p.length <= q.length { WiderContains(p, q, ip); } else { WiderContains(q, p, ip); }
    }
  }

  lemma {:induction false} OverlapIsSymmetric(p: Prefix, q: Prefix)
    ensures Overlaps(p, q) == Overlaps(q, p)
  {
  }

  /** How many values an index of the scanning machine can take. */
  const INDEX_RANGE := Pow2(64)

  /** The first address handed out: the network address itself only from a host prefix. */
  function FirstValue(p: Prefix): nat
    requires p.length <= p.address.Width()
  {
    p.address.value + if p.HostBits() != 0 then 1 else 0
  }

  /** IPv4 reserves both ends of a block, IPv6 only the first address. */
  function UsableCount(p: Prefix): nat
    requires p.length <= p.address.Width()
  {
    if p.HostBits() == 0 then 1
    else if p.address.V4? then (if p.Size() >= 2 then p.Size() - 2 else 0)
    else p.Size() - 1
  }

  function Candidate(p: Prefix, index: nat): Option<Ip>
    requires Canonical(p)
  {
    if index < INDEX_RANGE && (index < UsableCount(p) || (p.address.V6? && p.HostBits() == 128))
    then Some(IpOf(p.address.Family(), FirstValue(p) + index)) else None
  }

  predicate Usable(p: Prefix, ip: Ip) {
    && Contains(p, ip)
    && (p.address.V4? && p.length < 32 ==> p.address.value < ip.value < p.address.value + Pow2(32 - p.length) - 1)
    && (p.address.V6? && p.length < 128 ==> p.address.value < ip.value)
  }

  lemma {:induction false} Pow2Strict(a: nat, b: nat)
    requires a < b
    ensures Pow2(a) < Pow2(b)
  {
    Pow2Monotone(a, b - 1);
  }

  /** A canonical block ends inside the address space. */
  lemma {:induction false} BlockFits(p: Prefix)
    requires Canonical(p)
    ensures p.address.value + p.Size() <= Pow2(p.address.Width())
  {
    hide Pow2;
    var m, k, q := p.Size(), Pow2(p.length), p.address.value / p.Size();
    Pow2Sum(p.HostBits(), p.length);
    AlignedBlock(p.address.value, p.address.value, m);
    MultipleFits(m, q, k);
  }

  lemma {:induction false} MultipleFits(m: nat, q: nat, k: nat)
    requires m * q < m * k
    ensures m * q + m <= m * k
  {
    if q < k { MulGap(m, q, k); } else if k < q { MulGap(m, k, q); }
  }

  lemma {:induction false} Pow2Small()
    ensures Pow2(0) == 1 && Pow2(1) == 2
  {
  }

  lemma {:induction false} SizeFacts(p: Prefix)
    requires Canonical(p)
    ensures p.HostBits() == 0 ==> p.Size() == 1
    ensures p.HostBits() > 0 ==> p.Size() >= 2
    ensures p.address.V4? ==> p.Size() <= INDEX_RANGE
    ensures p.HostBits() == 128 ==> p.address.value == 0 && p.Size() > INDEX_RANGE
  {
    hide Pow2, Truncate;
    Pow2Small();
    if p.HostBits() > 0 { Pow2Monotone(1, p.HostBits()); }
    if p.address.V4? { Pow2Monotone(p.HostBits(), 64); }
    if p.HostBits() == 128 {
      BlockFits(p);
      Pow2Strict(64, 128);
    }
  }

  /** The candidates are exactly the usable addresses whose offset fits the index, each
      without overflow and in strictly increasing order: all of them for IPv4. */
  lemma {:induction false} CandidatesAreUsable(p: Prefix, ip: Ip)
    requires Canonical(p) && ip.Valid()
    ensures Usable(p, ip) && ip.value - FirstValue(p) < INDEX_RANGE <==>
      p.address.Family() == ip.Family() && ip.value >= FirstValue(p) && Candidate(p, ip.value - FirstValue(p)) == Some(ip)
    ensures Usable(p, ip) ==> ip.value >= FirstValue(p)
    ensures Usable(p, ip) && ip.V4? ==> ip.value - FirstValue(p) < INDEX_RANGE
  {
    hide Pow2, Truncate, Contains;
    ContainsIsBlock(p, ip);
    SizeFacts(p);
  }

  lemma {:induction false} CandidateIsValid(p: Prefix, index: nat)
    requires Canonical(p) && Candidate(p, index).Some?
    ensures var ip := Candidate(p, index).value; ip.Valid() && Usable(p, ip) && ip.value == FirstValue(p) + index
  {
    hide Pow2, Truncate, Contains, Usable;
    BlockFits(p);
    SizeFacts(p);
    CandidatesAreUsable(p, Candidate(p, index).value);
  }
}
