/** Attachment keys, specifications and records of the CNI journal, their syntactic
    validation, and the dual-stack address allocation of one node block. */
module Attachments {
  import opened Results
  import opened Orders
  import opened Bits

  const MIN_DUAL_STACK_MTU := 1280
  const MAX_MTU := 65535
  const MAX_IDENTIFIER_BYTES := 253
  const MAX_NETNS_BYTES := 4096
  const MAX_NODE_LEASES := 65536

  datatype Key = Key(network: string, containerId: string, ifname: string)

  /** A creation nonce; the all-zero nonce is 0. */
  type Token = nat

  datatype Spec = Spec(key: Key, netns: string, mtu: nat, workloadUid: Option<string>) {
    predicate AcceptsReplay(requested: Spec) {
      && key == requested.key
      && netns == requested.netns
      && mtu == requested.mtu
      && (workloadUid.None? || requested.workloadUid == workloadUid)
    }
  }

  datatype Phase = Preparing | Ready | Aborting | Deleting

  datatype Lease = Lease(ipv4: nat, ipv6: nat)

  datatype Record = Record(spec: Spec, hostInterface: string, lease: Lease, phase: Phase, token: Option<Token>)

  type Table = map<Key, Record>

  /** The journal order: network, then container, then interface. */
  predicate KeyLess(a: Key, b: Key) {
    StringLess(a.network, b.network) ||
    (a.network == b.network &&
     (StringLess(a.containerId, b.containerId) ||
      (a.containerId == b.containerId && StringLess(a.ifname, b.ifname))))
  }

  lemma {:induction false} KeyOrder()
    ensures StrictTotal(KeyLess)
  {
    StringOrder();
    forall a, b, c | KeyLess(a, b) && KeyLess(b, c) ensures KeyLess(a, c) {
    }
  }

  lemma {:induction false} KeyLessDistinct(a: Key, b: Key)
    requires KeyLess(a, b)
    ensures a != b
  {
    StringOrder();
  }

  lemma {:induction false} KeyLessTransitive(a: Key, b: Key, c: Key)
    requires KeyLess(a, b) && KeyLess(b, c)
    ensures KeyLess(a, c)
  {
    KeyOrder();
  }

  /** The keys in journal order. */
  ghost function SortedKeys(keys: set<Key>): (r: seq<Key>)
    ensures forall i :: 0 <= i < |r| ==> r[i] in keys
    ensures forall k :: k in keys ==> k in r
    ensures |r| == |keys|
    ensures Ascending(r, KeyLess)
  {
    KeyOrder();
    var r := Ascend(keys, KeyLess);
    assert forall k :: k in r <==> k in Elements(r);
    r
  }

  predicate Alphanumeric(c: char) {
    'a' <= c <= 'z' || 'A' <= c <= 'Z' || '0' <= c <= '9'
  }

  predicate ValidIdentifier(value: string, max: nat) {
    && 0 < |value| <= max
    && Alphanumeric(value[0])
    && forall i :: 0 < i < |value| ==> Alphanumeric(value[i]) || value[i] in {'_', '.', '-'}
  }

  predicate ValidKey(key: Key) {
    && ValidIdentifier(key.network, MAX_IDENTIFIER_BYTES)
    && ValidIdentifier(key.containerId, MAX_IDENTIFIER_BYTES)
    && ValidIdentifier(key.ifname, 15)
  }

  predicate ValidSpec(spec: Spec) {
    && ValidKey(spec.key)
    && (spec.workloadUid.Some? ==> ValidIdentifier(spec.workloadUid.value, 128))
    && 0 < |spec.netns| <= MAX_NETNS_BYTES
    && spec.netns[0] == '/'
    && (forall i :: 0 <= i < |spec.netns| ==> spec.netns[i] != '\0')
    && MIN_DUAL_STACK_MTU <= spec.mtu <= MAX_MTU
  }

  /** One IPv4 and one IPv6 node block: network address and number of host bits. */
  datatype Provider = Provider(network4: nat, hostBits4: nat, network6: nat, hostBits6: nat)

  predicate ValidProvider(p: Provider) {
    2 <= p.hostBits4 <= 32 && 2 <= p.hostBits6 <= 128
  }

  function Capacity4(p: Provider): nat {
    var size := Pow2(p.hostBits4);
    var free := if size < 4 then 0 else size - 4;
    if free < MAX_NODE_LEASES then free else MAX_NODE_LEASES
  }

  function Capacity6(p: Provider): nat
    requires ValidProvider(p)
  {
    if p.hostBits6 >= 17 then MAX_NODE_LEASES else
    assert Pow2(p.hostBits6) >= Pow2(2) by { Pow2Monotone(2, p.hostBits6); }
    Pow2(p.hostBits6) - 2
  }

  predicate ValidLease(p: Provider, lease: Lease) {
    && p.network4 + 2 <= lease.ipv4 < p.network4 + Pow2(p.hostBits4) - 1
    && p.network6 + 2 <= lease.ipv6 < p.network6 + Pow2(p.hostBits6)
  }

  /** The lowest candidate at or after index i that is not in use. */
  function FirstFree(network: nat, i: nat, capacity: nat, used: set<nat>): (r: Option<nat>)
    ensures r.Some? ==> network + 2 + i <= r.value < network + 2 + capacity && r.value !in used
    ensures r.Some? ==> forall j :: network + 2 + i <= j < r.value ==> j in used
    ensures r.None? ==> forall j :: network + 2 + i <= j < network + 2 + capacity ==> j in used
    decreases capacity - i
  {
    if i >= capacity then None
    else if network + 2 + i !in used then Some(network + 2 + i)
    else FirstFree(network, i + 1, capacity, used)
  }

  predicate DistinctLeases(table: Table) {
    forall a, b :: a in table && b in table && a != b ==>
      table[a].lease.ipv4 != table[b].lease.ipv4 && table[a].lease.ipv6 != table[b].lease.ipv6
  }

  datatype IpamError = DuplicateLease | Exhausted

  function Allocate(p: Provider, table: Table): (r: Result<Lease, IpamError>)
    requires ValidProvider(p)
    ensures r.Ok? ==> ValidLease(p, r.value)
    ensures r.Ok? ==> forall k :: k in table ==>
      table[k].lease.ipv4 != r.value.ipv4 && table[k].lease.ipv6 != r.value.ipv6
  {
    if !DistinctLeases(table) then Err(DuplicateLease)
    else if |table| >= MAX_NODE_LEASES then Err(Exhausted)
    else
      var used4 := set k | k in table :: table[k].lease.ipv4;
      var used6 := set k | k in table :: table[k].lease.ipv6;
      var v4 := FirstFree(p.network4, 0, Capacity4(p), used4);
      var v6 := FirstFree(p.network6, 0, Capacity6(p), used6);
      if v4.None? || v6.None? then Err(Exhausted)
      else
        assert Pow2(p.hostBits4) >= 4 && (p.hostBits6 >= 17 ==> Pow2(p.hostBits6) >= 131072) by {
          Pow2Monotone(2, p.hostBits4);
          assert Pow2(2) == 4;
          Pow2At17();
          if p.hostBits6 >= 17 { Pow2Monotone(17, p.hostBits6); }
        }
        Ok(Lease(v4.value, v6.value))
  }

  lemma {:induction false} Pow2At17()
    ensures Pow2(17) == 131072
  {
    assert Pow2(5) == 32;
    assert Pow2(9) == 512;
    assert Pow2(13) == 8192;
  }
}
