/** BFD liveness evidence: sealing a daemon's readback against the configured peers. A
    digest is represented by what it commits to. */
module Bfd {
  import opened Results
  import opened Orders
  import opened Sorting
  import opened EgressPrefixes
  import opened Bgp
  import opened BgpTheorems

  /** `state` stands for session states, diagnostics, discriminators and counters. */
  datatype Session = Session(peerName: string, peerAddress: Ip, failureDomain: string, state: nat)

  datatype Body = Body(config: ConfigBody, nodeName: string, nodeUid: string, sourceEpoch: nat, revision: nat, observedAt: nat,
                       sessions: seq<Session>)

  datatype Evidence = Evidence(body: Body, digest: Body)

  /** What identifies a configured peer. */
  datatype Identity = Identity(name: string, address: Ip, failureDomain: string)

  function IdentityOf(s: Session): Identity { Identity(s.peerName, s.peerAddress, s.failureDomain) }

  /** The peers configured for BFD, in configuration order. */
  function ExpectedPeers(peers: seq<Peer>): seq<Identity> {
    if peers == [] then []
    else (if peers[0].bfd then [Identity(peers[0].name, peers[0].address, peers[0].failureDomain)] else []) + ExpectedPeers(peers[1..])
  }

  predicate SessionLess(a: Session, b: Session) { StringLess(a.peerName, b.peerName) }

  predicate IdentityLess(a: Identity, b: Identity) { StringLess(a.name, b.name) }

  predicate NeighboursDiffer(sessions: seq<Session>) {
    forall i :: 0 <= i < |sessions| - 1 ==>
      sessions[i].peerName != sessions[i + 1].peerName && sessions[i].peerAddress != sessions[i + 1].peerAddress
  }

  function Seal(given: Config, snapshot: Evidence): Option<Evidence> {
    var config := VerifyConfig(given);
    if config.None? then None
    else
      var sorted := snapshot.body.(sessions := Sort(snapshot.body.sessions, SessionLess));
      var expected := ExpectedPeers(config.value.body.peers);
      if sorted.config != config.value.digest || !ValidId(sorted.nodeName) || !ValidId(sorted.nodeUid)
         || sorted.sourceEpoch == 0 || sorted.revision == 0 || sorted.observedAt == 0 || !NeighboursDiffer(sorted.sessions) then None
      else if |sorted.sessions| != |expected| || exists s :: s in sorted.sessions && IdentityOf(s) !in expected then None
      else Some(Evidence(sorted, sorted))
  }

  function Verify(given: Config, snapshot: Evidence): Option<Evidence> {
    var replayed := Seal(given, snapshot);
    if replayed.Some? && replayed.value.digest == snapshot.digest then replayed else None
  }

  lemma {:induction false} NameOrders()
    ensures StrictWeak(SessionLess) && StrictWeak(IdentityLess)
  {
    hide StringLess;
    StringOrder();
    TotalIsWeak(StringLess);
    forall a, b, c | !SessionLess(a, b) && !SessionLess(b, c) ensures !SessionLess(a, c) {
      assert !StringLess(a.peerName, b.peerName) && !StringLess(b.peerName, c.peerName);
    }
    forall a, b, c | !IdentityLess(a, b) && !IdentityLess(b, c) ensures !IdentityLess(a, c) {
      assert !StringLess(a.name, b.name) && !StringLess(b.name, c.name);
    }
  }

  lemma {:induction false} SessionsAscend(sessions: seq<Session>)
    requires Sorted(sessions, SessionLess) && NeighboursDiffer(sessions)
    ensures Ascending(sessions, SessionLess)
  {
    hide StringLess;
    NameOrders();
    StringOrder();
    forall i | 0 <= i < |sessions| - 1 ensures SessionLess(sessions[i], sessions[i + 1]) {
      assert !SessionLess(sessions[i + 1], sessions[i]);
    }
    NeighboursAscend(sessions, SessionLess);
  }

  lemma {:induction false} ExpectedAscend(peers: seq<Peer>)
    requires Ascending(peers, PeerLess)
    ensures Ascending(ExpectedPeers(peers), IdentityLess)
    ensures forall e :: e in ExpectedPeers(peers) ==> exists p :: p in peers && p.name == e.name
    decreases |peers|
  {
    hide StringLess;
    if peers != [] {
      ExpectedAscend(peers[1..]);
      var rest := ExpectedPeers(peers[1..]);
      forall e | e in rest ensures StringLess(peers[0].name, e.name) && exists p :: p in peers && p.name == e.name {
        var p :| p in peers[1..] && p.name == e.name;
        var k :| 0 <= k < |peers[1..]| && peers[1..][k] == p;
        assert PeerLess(peers[0], peers[k + 1]);
        assert p in peers;
      }
      var all := ExpectedPeers(peers);
      forall e | e in all ensures exists p :: p in peers && p.name == e.name {
        if e !in rest { assert peers[0] in peers && peers[0].name == e.name; }
      }
      forall i, j | 0 <= i < j < |all| ensures IdentityLess(all[i], all[j]) {
        if peers[0].bfd {
          assert all[j] == rest[j - 1];
          if i > 0 { assert all[i] == rest[i - 1]; }
        } else {
          assert all == rest;
        }
      }
    }
  }

  function Identities(sessions: seq<Session>): (r: seq<Identity>)
    ensures |r| == |sessions|
  {
    seq(|sessions|, i requires 0 <= i < |sessions| => IdentityOf(sessions[i]))
  }

  lemma {:induction false} DistinctSize(s: seq<Identity>)
    requires Ascending(s, IdentityLess)
    ensures |Elements(s)| == |s|
    decreases |s|
  {
    hide StringLess;
    NameOrders();
    if s != [] {
      var init := s[..|s| - 1];
      DistinctSize(init);
      assert s == init + [s[|s| - 1]];
      forall i | 0 <= i < |init| ensures init[i] != s[|s| - 1] { assert IdentityLess(s[i], s[|s| - 1]); }
      assert Elements(s) == Elements(init) + {s[|s| - 1]};
    }
  }

  /** As many distinct members as the set has: all of it. */
  lemma {:induction false} CountingFills(a: set<Identity>, b: set<Identity>)
    requires a <= b && |a| == |b|
    ensures a == b
  {
    if a != b {
      var x :| x in b && x !in a;
      SubsetSize(a, b - {x});
    }
  }

  lemma {:induction false} SubsetSize(a: set<Identity>, b: set<Identity>)
    requires a <= b
    ensures |a| <= |b|
    decreases |a|
  {
    if a != {} {
      var x :| x in a;
      SubsetSize(a - {x}, b - {x});
    }
  }

  /** Equal length, membership and distinct names force the lists to be equal. */
  lemma {:induction false} MembersMatch(found: seq<Identity>, expected: seq<Identity>)
    requires Ascending(found, IdentityLess) && Ascending(expected, IdentityLess)
    requires |found| == |expected| && forall x :: x in found ==> x in expected
    ensures found == expected
  {
    hide IdentityLess;
    NameOrders();
    DistinctSize(found);
    DistinctSize(expected);
    forall x | x in Elements(found) ensures x in Elements(expected) { assert x in found; }
    CountingFills(Elements(found), Elements(expected));
    forall x ensures x in found <==> x in expected { assert x in Elements(found) <==> x in Elements(expected); }
    AscendingIsFixed(found, IdentityLess);
    AscendingIsFixed(expected, IdentityLess);
    SameAscending(found, expected);
  }

  lemma {:induction false} HeadIsLeast(s: seq<Identity>, x: Identity)
    requires Ascending(s, IdentityLess) && x in s
    ensures x == s[0] || IdentityLess(s[0], x)
  {
  }

  lemma {:induction false} SameAscending(a: seq<Identity>, b: seq<Identity>)
    requires Ascending(a, IdentityLess) && Ascending(b, IdentityLess) && |a| == |b| && forall x :: x in a <==> x in b
    ensures a == b
    decreases |a|
  {
    hide StringLess;
    NameOrders();
    if a != [] {
      HeadIsLeast(b, a[0]);
      HeadIsLeast(a, b[0]);
      TailMembers(a);
      TailMembers(b);
      SameAscending(a[1..], b[1..]);
      assert a == [a[0]] + a[1..] && b == [b[0]] + b[1..];
    }
  }

  lemma {:induction false} TailMembers(a: seq<Identity>)
    requires a != [] && Ascending(a, IdentityLess)
    ensures forall x :: x in a[1..] <==> x in a && x != a[0]
  {
    hide StringLess;
    NameOrders();
    forall x ensures x in a[1..] <==> x in a && x != a[0] {
      if x in a[1..] {
        var i :| 0 <= i < |a[1..]| && a[1..][i] == x;
        assert IdentityLess(a[0], a[i + 1]);
      }
      if x in a && x != a[0] {
        var i :| 0 <= i < |a| && a[i] == x;
        assert a[1..][i - 1] == x;
      }
    }
  }

  /** Some peer with BFD switched on has this name, address and failure domain. */
  predicate Configured(peers: seq<Peer>, e: Identity) {
    exists p :: p in peers && p.bfd && p.name == e.name && p.address == e.address && p.failureDomain == e.failureDomain
  }

  lemma {:induction false} ExpectedExactly(peers: seq<Peer>)
    ensures forall e :: e in ExpectedPeers(peers) <==> Configured(peers, e)
    decreases |peers|
  {
    if peers != [] {
      ExpectedExactly(peers[1..]);
      assert peers == [peers[0]] + peers[1..];
      forall e ensures Configured(peers, e) <==> Configured(peers[1..], e) || (peers[0].bfd && e == Identity(peers[0].name, peers[0].address, peers[0].failureDomain)) {
        assert peers[0] in peers;
      }
    }
  }

  /** A sealed snapshot's sessions are, one for one and in order, the peers configured for BFD. */
  lemma {:induction false} SessionsMatchPeers(given: Config, snapshot: Evidence)
    requires Seal(given, snapshot).Some?
    ensures Identities(Seal(given, snapshot).value.body.sessions) == ExpectedPeers(VerifyConfig(given).value.body.peers)
    ensures Ascending(Seal(given, snapshot).value.body.sessions, SessionLess)
    ensures forall e :: e in Identities(Seal(given, snapshot).value.body.sessions) <==> Configured(VerifyConfig(given).value.body.peers, e)
  {
    hide VerifyConfig, ValidId, SessionLess, Sort;
    NameOrders();
    ConfigReplays(given);
    SortSorts(snapshot.body.sessions, SessionLess);
    var sessions := Seal(given, snapshot).value.body.sessions;
    SessionsAscend(sessions);
    var found, expected := Identities(sessions), ExpectedPeers(VerifyConfig(given).value.body.peers);
    ExpectedAscend(VerifyConfig(given).value.body.peers);
    NamesAgree(sessions);
    forall x | x in found ensures x in expected {
      var i :| 0 <= i < |found| && found[i] == x;
      assert sessions[i] in sessions;
    }
    MembersMatch(found, expected);
    ExpectedExactly(VerifyConfig(given).value.body.peers);
  }

  lemma {:induction false} NamesAgree(sessions: seq<Session>)
    requires Ascending(sessions, SessionLess)
    ensures Ascending(Identities(sessions), IdentityLess)
  {
    hide StringLess;
    forall i, j | 0 <= i < j < |sessions| ensures IdentityLess(Identities(sessions)[i], Identities(sessions)[j]) {
      assert SessionLess(sessions[i], sessions[j]);
    }
  }

  /** Sealing a sealed snapshot changes nothing, and verifying one succeeds. */
  lemma {:induction false} SealIsIdempotent(given: Config, snapshot: Evidence)
    requires Seal(given, snapshot).Some?
    ensures Seal(given, Seal(given, snapshot).value) == Seal(given, snapshot)
    ensures Verify(given, Seal(given, snapshot).value) == Seal(given, snapshot)
  {
    SessionsMatchPeers(given, snapshot);
    hide VerifyConfig, ValidId, SessionLess, ExpectedPeers;
    NameOrders();
    AscendingIsFixed(Seal(given, snapshot).value.body.sessions, SessionLess);
  }

  /** If one order of the sessions passes, the sorted list is the same for every order. */
  lemma {:induction false} SortForgets(a: seq<Session>, b: seq<Session>)
    requires multiset(a) == multiset(b) && NeighboursDiffer(Sort(a, SessionLess))
    ensures Sort(a, SessionLess) == Sort(b, SessionLess)
  {
    hide SessionLess;
    NameOrders();
    SortSorts(a, SessionLess);
    SortSorts(b, SessionLess);
    SessionsAscend(Sort(a, SessionLess));
    AscendingIsFixed(Sort(a, SessionLess), SessionLess);
    SortedUnique(Sort(a, SessionLess), Sort(b, SessionLess), SessionLess);
  }

  /** The order in which sessions are reported does not matter. */
  lemma {:induction false} SealIgnoresOrder(given: Config, snapshot: Evidence, sessions: seq<Session>)
    requires multiset(sessions) == multiset(snapshot.body.sessions)
    ensures Seal(given, snapshot.(body := snapshot.body.(sessions := sessions))) == Seal(given, snapshot)
  {
    hide VerifyConfig, ValidId, Sort, NeighboursDiffer, ExpectedPeers;
    if NeighboursDiffer(Sort(snapshot.body.sessions, SessionLess)) { SortForgets(snapshot.body.sessions, sessions); }
    if NeighboursDiffer(Sort(sessions, SessionLess)) { SortForgets(sessions, snapshot.body.sessions); }
  }

  predicate NamesDiffer(sessions: seq<Session>) {
    forall i, j :: 0 <= i < j < |sessions| ==> sessions[i].peerName != sessions[j].peerName
  }

  /** Nothing is reported between these two in name order. */
  predicate NextTo(sessions: seq<Session>, a: Session, b: Session) {
    a in sessions && b in sessions && StringLess(a.peerName, b.peerName)
    && forall c :: c in sessions ==> !(StringLess(a.peerName, c.peerName) && StringLess(c.peerName, b.peerName))
  }

  /** The reported sessions are of the peers with BFD switched on, one each, and no two next to
      each other in name order share an address. */
  ghost predicate OneEach(sessions: seq<Session>, peers: seq<Peer>) {
    && NamesDiffer(sessions)
    && (forall s :: s in sessions ==> Configured(peers, IdentityOf(s)))
    && (forall p :: p in peers && p.bfd ==> exists s :: s in sessions && IdentityOf(s) == Identity(p.name, p.address, p.failureDomain))
    && (forall a, b :: NextTo(sessions, a, b) ==> a.peerAddress != b.peerAddress)
  }

  lemma {:induction false} AscendingNeighbours(sorted: seq<Session>)
    requires Ascending(sorted, SessionLess)
    ensures NamesDiffer(sorted)
    ensures (forall a, b :: NextTo(sorted, a, b) ==> a.peerAddress != b.peerAddress) <==>
      forall i :: 0 <= i < |sorted| - 1 ==> sorted[i].peerAddress != sorted[i + 1].peerAddress
  {
    hide StringLess;
    StringOrder();
    NameOrders();
    forall i, j | 0 <= i < j < |sorted| ensures sorted[i].peerName != sorted[j].peerName { assert SessionLess(sorted[i], sorted[j]); }
    forall i | 0 <= i < |sorted| - 1 ensures NextTo(sorted, sorted[i], sorted[i + 1]) { NeighboursAreNext(sorted, i); }
    forall a, b | NextTo(sorted, a, b) ensures exists i :: 0 <= i < |sorted| - 1 && sorted[i] == a && sorted[i + 1] == b { NextAreNeighbours(sorted, a, b); }
  }

  lemma {:induction false} NeighboursAreNext(sorted: seq<Session>, i: nat)
    requires Ascending(sorted, SessionLess) && i + 1 < |sorted|
    ensures NextTo(sorted, sorted[i], sorted[i + 1])
  {
    hide StringLess;
    StringOrder();
    assert SessionLess(sorted[i], sorted[i + 1]);
    forall c | c in sorted ensures !(StringLess(sorted[i].peerName, c.peerName) && StringLess(c.peerName, sorted[i + 1].peerName)) {
      var k :| 0 <= k < |sorted| && sorted[k] == c;
      if k < i { assert SessionLess(sorted[k], sorted[i]); }
      if k > i + 1 { assert SessionLess(sorted[i + 1], sorted[k]); }
    }
  }

  lemma {:induction false} NextAreNeighbours(sorted: seq<Session>, a: Session, b: Session)
    requires Ascending(sorted, SessionLess) && NextTo(sorted, a, b)
    ensures exists i :: 0 <= i < |sorted| - 1 && sorted[i] == a && sorted[i + 1] == b
  {
    hide StringLess;
    StringOrder();
    var i :| 0 <= i < |sorted| && sorted[i] == a;
    var j :| 0 <= j < |sorted| && sorted[j] == b;
    assert forall k, l :: 0 <= k < l < |sorted| ==> SessionLess(sorted[k], sorted[l]);
    assert i + 1 < |sorted| ==> sorted[i + 1] in sorted;
    assert j == i + 1;
  }

  lemma {:induction false} NamesDifferStays(a: seq<Session>, b: seq<Session>)
    requires NamesDiffer(a) && multiset(a) == multiset(b)
    ensures NamesDiffer(b)
  {
    SameMembers(a, b);
    forall i, j | 0 <= i < j < |b| ensures b[i].peerName != b[j].peerName {
      if b[i] == b[j] { SessionTwice(b, i, j); SessionOnce(a, b[i]); }
      assert b[i] in b && b[j] in b;
      var k :| 0 <= k < |a| && a[k] == b[i];
      var l :| 0 <= l < |a| && a[l] == b[j];
    }
  }

  lemma {:induction false} SessionTwice(s: seq<Session>, i: nat, j: nat)
    requires i < j < |s| && s[i] == s[j]
    ensures multiset(s)[s[i]] >= 2
  {
    assert s == s[..i] + [s[i]] + s[i + 1..j] + [s[j]] + s[j + 1..];
  }

  lemma {:induction false} SessionOnce(s: seq<Session>, x: Session)
    requires NamesDiffer(s)
    ensures multiset(s)[x] <= 1
    decreases |s|
  {
    if s != [] {
      var front := s[..|s| - 1];
      SessionOnce(front, x);
      assert s == front + [s[|s| - 1]];
      assert s[|s| - 1] !in front;
      assert x !in front ==> multiset(front)[x] == 0;
    }
  }

  /** The order of the list does not matter to what is reported. */
  lemma {:induction false} OneEachStays(a: seq<Session>, b: seq<Session>, peers: seq<Peer>)
    requires multiset(a) == multiset(b)
    ensures OneEach(a, peers) <==> OneEach(b, peers)
  {
    hide StringLess, Configured;
    SameMembers(a, b);
    if NamesDiffer(a) { NamesDifferStays(a, b); }
    if NamesDiffer(b) { NamesDifferStays(b, a); }
    forall x, y ensures NextTo(a, x, y) <==> NextTo(b, x, y) { }
  }

  lemma {:induction false} DifferingAscend(sorted: seq<Session>)
    requires Sorted(sorted, SessionLess) && NamesDiffer(sorted)
    ensures Ascending(sorted, SessionLess)
  {
    hide StringLess;
    StringOrder();
    forall i, j | 0 <= i < j < |sorted| ensures SessionLess(sorted[i], sorted[j]) { assert !SessionLess(sorted[j], sorted[i]); }
  }

  /** On sorted sessions the three tests of sealing say no less and no more. */
  lemma {:induction false} SortedTests(sorted: seq<Session>, peers: seq<Peer>)
    requires Sorted(sorted, SessionLess) && Ascending(peers, PeerLess)
    ensures var expected := ExpectedPeers(peers);
      NeighboursDiffer(sorted) && |sorted| == |expected| && (forall s :: s in sorted ==> IdentityOf(s) in expected) <==> OneEach(sorted, peers)
  {
    hide StringLess, Configured, NextTo;
    var expected, found := ExpectedPeers(peers), Identities(sorted);
    ExpectedAscend(peers);
    ExpectedExactly(peers);
    if NeighboursDiffer(sorted) { SessionsAscend(sorted); }
    if NamesDiffer(sorted) { DifferingAscend(sorted); }
    if Ascending(sorted, SessionLess) {
      AscendingNeighbours(sorted);
      NamesAgree(sorted);
      forall s | s in sorted ensures IdentityOf(s) in found { var i :| 0 <= i < |sorted| && sorted[i] == s; assert found[i] == IdentityOf(s); }
      if NeighboursDiffer(sorted) && |sorted| == |expected| && forall s :: s in sorted ==> IdentityOf(s) in expected {
        forall x | x in found ensures x in expected { var i :| 0 <= i < |found| && found[i] == x; assert sorted[i] in sorted; }
        MembersMatch(found, expected);
        AllCovered(sorted, peers);
      }
      if OneEach(sorted, peers) { CoveredMatch(sorted, peers); }
    }
  }

  lemma {:induction false} AllCovered(sorted: seq<Session>, peers: seq<Peer>)
    requires Identities(sorted) == ExpectedPeers(peers)
    ensures forall p :: p in peers && p.bfd ==> exists s :: s in sorted && IdentityOf(s) == Identity(p.name, p.address, p.failureDomain)
  {
    ExpectedExactly(peers);
    forall p | p in peers && p.bfd ensures exists s :: s in sorted && IdentityOf(s) == Identity(p.name, p.address, p.failureDomain) {
      var e := Identity(p.name, p.address, p.failureDomain);
      assert Configured(peers, e) && e in Identities(sorted);
      var i :| 0 <= i < |sorted| && Identities(sorted)[i] == e;
      assert sorted[i] in sorted;
    }
  }

  lemma {:induction false} CoveredMatch(sorted: seq<Session>, peers: seq<Peer>)
    requires OneEach(sorted, peers) && Ascending(sorted, SessionLess) && Ascending(peers, PeerLess)
    ensures |sorted| == |ExpectedPeers(peers)| && forall s :: s in sorted ==> IdentityOf(s) in ExpectedPeers(peers)
  {
    hide StringLess;
    var expected, found := ExpectedPeers(peers), Identities(sorted);
    ExpectedAscend(peers);
    ExpectedExactly(peers);
    NamesAgree(sorted);
    DistinctSize(found);
    DistinctSize(expected);
    forall x ensures x in Elements(found) <==> x in Elements(expected) {
      if x in found { var i :| 0 <= i < |found| && found[i] == x; assert sorted[i] in sorted; }
      if x in expected {
        var p :| p in peers && p.bfd && p.name == x.name && p.address == x.address && p.failureDomain == x.failureDomain;
        var s :| s in sorted && IdentityOf(s) == Identity(p.name, p.address, p.failureDomain);
        var i :| 0 <= i < |sorted| && sorted[i] == s;
        assert found[i] == x;
      }
    }
    assert Elements(found) == Elements(expected);
  }

  /** A readback is sealed exactly for a verified configuration it names, a proper node and
      positive counters, and one session of each peer with BFD switched on. */
  lemma {:induction false} SealExactly(given: Config, snapshot: Evidence)
    ensures var b := snapshot.body;
      Seal(given, snapshot).Some? <==>
        && VerifyConfig(given).Some? && b.config == VerifyConfig(given).value.digest
        && ValidId(b.nodeName) && ValidId(b.nodeUid) && b.sourceEpoch != 0 && b.revision != 0 && b.observedAt != 0
        && OneEach(b.sessions, VerifyConfig(given).value.body.peers)
    ensures Seal(given, snapshot).Some? ==>
      var sealed := Seal(given, snapshot).value;
      && sealed.digest == sealed.body && sealed.body == snapshot.body.(sessions := sealed.body.sessions)
      && multiset(sealed.body.sessions) == multiset(snapshot.body.sessions)
  {
    hide VerifyConfig, ValidId, SessionLess, Sort, NeighboursDiffer, ExpectedPeers, OneEach;
    if VerifyConfig(given).Some? {
      ConfigReplays(given);
      NameOrders();
      var peers, sorted := VerifyConfig(given).value.body.peers, Sort(snapshot.body.sessions, SessionLess);
      SortSorts(snapshot.body.sessions, SessionLess);
      OneEachStays(sorted, snapshot.body.sessions, peers);
      SortedTests(sorted, peers);
    }
  }

  /** A changed copy of sealed evidence verifies exactly if only the order of its sessions was
      changed, and then as what was sealed. */
  lemma {:induction false} TamperingShows(given: Config, snapshot: Evidence, body: Body)
    requires Seal(given, snapshot).Some?
    ensures var sealed := Seal(given, snapshot).value; var copy := sealed.(body := body);
      && (Verify(given, copy).Some? <==> body == sealed.body.(sessions := body.sessions) && multiset(body.sessions) == multiset(sealed.body.sessions))
      && (Verify(given, copy).Some? ==> Verify(given, copy).value == sealed)
  {
    hide VerifyConfig, ValidId, Sort, SessionLess, Seal, OneEach;
    SealExactly(given, snapshot);
    var sealed := Seal(given, snapshot).value;
    var copy := sealed.(body := body);
    SealIsIdempotent(given, snapshot);
    if Seal(given, copy).Some? { SealExactly(given, copy); }
    if body == sealed.body.(sessions := body.sessions) && multiset(body.sessions) == multiset(sealed.body.sessions) {
      SealIgnoresOrder(given, sealed, body.sessions);
    }
  }
}
