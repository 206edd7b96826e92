/** What sealing, replaying and preparing accept, stated without the code's own sorting and
    filtering. */
module BgpAcceptance {
  import opened Results
  import opened Orders
  import opened Sorting
  import opened EgressPrefixes
  import opened EgressPools
  import opened EgressAllocation
  import opened Bgp
  import opened BgpTheorems

  /** Sealing a configuration orders its peers and exports and changes nothing else, and what
      it produces verifies to itself. */
  lemma {:induction false} SealedConfigVerifies(c: ConfigBody)
    requires SealConfig(c).Some?
    ensures var sealed := SealConfig(c).value;
      && VerifyConfig(sealed) == Some(sealed)
      && multiset(sealed.body.peers) == multiset(c.peers) && multiset(sealed.body.exports) == multiset(c.exports)
      && sealed.body == c.(peers := sealed.body.peers, exports := sealed.body.exports)
      && Ascending(sealed.body.peers, PeerLess)
  {
    hide ValidBody, Unambiguous, PeerLess, PrefixLess, Sort;
    ArrangedIsFixed(c);
    ArrangedIsValid(c);
    PeerOrder();
    PrefixOrder();
    SortSorts(c.peers, PeerLess);
    SortSorts(c.exports, PrefixLess);
  }

  /** A sealed route carries exactly what was asked for, the configured next hop of its family
      and a capsule over both, and every replay accepts it. */
  lemma {:induction false} SealedRouteReplays(config: Config, owner: Owner, provider: Provider, revision: nat, epoch: nat, ip: Ip,
                                              gateway: string, gatewayUid: string, plan: nat)
    requires VerifyConfig(config) == Some(config)
    requires SealRoute(config, owner, provider, revision, epoch, ip, gateway, gatewayUid, plan).Some?
    ensures var route := SealRoute(config, owner, provider, revision, epoch, ip, gateway, gatewayUid, plan).value;
      && Replays(config, route) && Genuine(route)
      && route.body.owner == owner && route.body.provider == provider && route.body.revision == revision && route.body.epoch == epoch
      && route.body.prefix.address == ip && route.body.prefix.length == ip.Width()
      && Some(route.body.nextHop) == (if ip.V4? then config.body.nextHop4 else config.body.nextHop6)
      && route.body.gateway == gateway && route.body.gatewayUid == gatewayUid && route.body.plan == plan
      && route.body.capsule == Capsule(config.body.localAsn, owner, provider, revision, epoch, route.body.prefix, route.body.nextHop, gatewayUid, plan)
  {
    hide VerifyConfig, Unicast, ValidRouteOwner, ValidId, Contains;
  }

  /** What may be advertised: an address inside the exports, of a family with a next hop and a
      peer that carries it, for the BGP provider of this configuration. */
  ghost predicate Exportable(c: ConfigBody, r: RouteBody) {
    && r.provider == Provider("bgp", c.instance) && r.revision != 0 && r.epoch != 0 && r.plan != 0
    && ValidRouteOwner(r.owner) && ValidId(r.gateway) && ValidId(r.gatewayUid)
    && Unicast(r.prefix.address) && r.prefix.length == r.prefix.address.Width()
    && (exists i :: 0 <= i < |c.exports| && Contains(c.exports[i], r.prefix.address))
    && (exists i :: 0 <= i < |c.peers| && r.prefix.address.Family() in c.peers[i].families)
    && (if r.prefix.address.V4? then c.nextHop4.Some? else c.nextHop6.Some?)
  }

  lemma {:induction false} ReplaysIsExportable(config: Config, route: Route)
    requires VerifyConfig(config) == Some(config) && Replays(config, route)
    ensures Exportable(config.body, route.body)
  {
    hide VerifyConfig, Unicast, ValidRouteOwner, ValidId, Contains;
    var c, ip := config.body, route.body.prefix.address;
    var allowed :| allowed in c.exports && Contains(allowed, ip);
    var i :| 0 <= i < |c.exports| && c.exports[i] == allowed;
    var peer :| peer in c.peers && ip.Family() in peer.families;
    var j :| 0 <= j < |c.peers| && c.peers[j] == peer;
  }

  /** A route seals exactly for what may be advertised. */
  lemma {:induction false} SealRouteExactly(config: Config, r: RouteBody)
    requires VerifyConfig(config) == Some(config) && r.prefix.length == r.prefix.address.Width()
    ensures SealRoute(config, r.owner, r.provider, r.revision, r.epoch, r.prefix.address, r.gateway, r.gatewayUid, r.plan).Some?
        <==> Exportable(config.body, r)
  {
    hide VerifyConfig, Unicast, ValidRouteOwner, ValidId, Contains, Replays;
    var sealed := SealRoute(config, r.owner, r.provider, r.revision, r.epoch, r.prefix.address, r.gateway, r.gatewayUid, r.plan);
    if sealed.Some? {
      SealedRouteReplays(config, r.owner, r.provider, r.revision, r.epoch, r.prefix.address, r.gateway, r.gatewayUid, r.plan);
      ReplaysIsExportable(config, sealed.value);
    }
  }

  /** No transaction, accepted or read back, ever advertises anything else. */
  lemma {:induction false} OnlyExportsAreAdvertised(given: Config, previous: Snapshot, desired: Snapshot, route: Route)
    requires Prepare(given, previous, desired).Some? && route in Prepare(given, previous, desired).value.body.desired.body.routes
    ensures VerifyConfig(given).Some? && Exportable(VerifyConfig(given).value.body, route.body)
  {
    hide VerifyConfig, Replays, Exportable, Keep, RouteLess, Sort;
    ConfigReplays(given);
    var config := VerifyConfig(given).value;
    ReplayOrders(config, desired);
    assert route in desired.body.routes;
    ReplaysIsExportable(config, route);
  }

  /** The routes of `sorted`, in ascending prefix order. */
  ghost predicate Ordered(routes: seq<Route>, sorted: seq<Route>) {
    Ascending(sorted, RouteLess) && multiset(sorted) == multiset(routes)
  }

  lemma {:induction false} SortedIsOrdered(routes: seq<Route>)
    ensures DistinctPrefixes(Sort(routes, RouteLess)) <==> PrefixesDiffer(routes)
    ensures forall s :: Ordered(routes, s) ==> s == Sort(routes, RouteLess)
    ensures PrefixesDiffer(routes) ==> Ordered(routes, Sort(routes, RouteLess))
  {
    hide RouteLess, Sort;
    RouteOrder();
    SortSorts(routes, RouteLess);
    var sorted := Sort(routes, RouteLess);
    if DistinctPrefixes(sorted) {
      RoutesAscend(sorted);
      AscendingPrefixesDiffer(sorted);
      PermutedDiffer(sorted, routes);
    }
    if PrefixesDiffer(routes) {
      PermutedDiffer(routes, sorted);
      RoutesAscend(sorted);
    }
    forall s | Ordered(routes, s) ensures s == sorted {
      AscendingIsFixed(s, RouteLess);
      SameMembers(sorted, s);
      SortedUnique(s, sorted, RouteLess);
    }
  }

  lemma {:induction false} PermutedDiffer(a: seq<Route>, b: seq<Route>)
    requires PrefixesDiffer(a) && multiset(a) == multiset(b)
    ensures PrefixesDiffer(b)
  {
    SameMembers(a, b);
    forall i, j | 0 <= i < j < |b| ensures b[i].body.prefix != b[j].body.prefix {
      if b[i] == b[j] { TwiceIn(b, i, j); OnceIn(a, b[i]); }
      assert b[i] in b && b[j] in b;
      var k :| 0 <= k < |a| && a[k] == b[i];
      var l :| 0 <= l < |a| && a[l] == b[j];
    }
  }

  lemma {:induction false} TwiceIn(s: seq<Route>, i: nat, j: nat)
    requires i < j < |s| && s[i] == s[j]
    ensures multiset(s)[s[i]] >= 2
  {
    assert s == s[..i] + [s[i]] + s[i + 1..j] + [s[j]] + s[j + 1..];
  }

  lemma {:induction false} OnceIn(s: seq<Route>, r: Route)
    requires PrefixesDiffer(s)
    ensures multiset(s)[r] <= 1
    decreases |s|
  {
    if s != [] {
      var front := s[..|s| - 1];
      OnceIn(front, r);
      assert s == front + [s[|s| - 1]];
      assert s[|s| - 1] !in front;
      assert r !in front ==> multiset(front)[r] == 0;
    }
  }

  /** A snapshot is sealed exactly for a positive revision, no more routes than allowed, each
      of them accepted, and no prefix twice in any order. */
  lemma {:induction false} SealSnapshotExactly(config: Config, revision: nat, routes: seq<Route>)
    requires VerifyConfig(config) == Some(config)
    ensures SealSnapshot(config, revision, routes).Some? <==>
      revision != 0 && |routes| <= config.body.maxTotal && PrefixesDiffer(routes) && forall r :: r in routes ==> Replays(config, r)
    ensures SealSnapshot(config, revision, routes).Some? ==>
      var s := SealSnapshot(config, revision, routes).value;
      s.digest == s.body && s.body.revision == revision && s.body.config == config.digest && Ordered(routes, s.body.routes)
  {
    hide VerifyConfig, Replays, RouteLess, Sort;
    SortedIsOrdered(routes);
  }

  /** A snapshot replays exactly if it is of this configuration, could be sealed, and its digest
      is of its own routes in prefix order. */
  lemma {:induction false} ReplayExactly(config: Config, snapshot: Snapshot)
    requires VerifyConfig(config) == Some(config)
    ensures Replay(config, snapshot).Some? <==>
      && snapshot.body.config == config.digest && snapshot.body.revision != 0
      && |snapshot.body.routes| <= config.body.maxTotal && PrefixesDiffer(snapshot.body.routes)
      && (forall r :: r in snapshot.body.routes ==> Replays(config, r))
      && snapshot.digest.revision == snapshot.body.revision && snapshot.digest.config == config.digest
      && Ordered(snapshot.body.routes, snapshot.digest.routes)
  {
    hide VerifyConfig, Replays, RouteLess, Sort, SealSnapshot, PrefixesDiffer;
    SealSnapshotExactly(config, snapshot.body.revision, snapshot.body.routes);
    SortedIsOrdered(snapshot.body.routes);
  }

  /** No prefix of both lists changes owner or lease epoch. */
  predicate KeepsOwners(before: seq<Route>, after: seq<Route>) {
    forall a, b :: a in before && b in after && a.body.prefix == b.body.prefix ==> a.body.owner == b.body.owner && a.body.epoch == b.body.epoch
  }

  /** How many prefix and digest pairs are in exactly one of the lists. */
  function Changes(before: seq<Route>, after: seq<Route>): nat {
    |Keys(before) - Keys(after)| + |Keys(after) - Keys(before)|
  }

  lemma {:induction false} KeptElsewhere(routes: seq<Route>, others: seq<Route>)
    requires PrefixesDiffer(routes)
    ensures |Keep(routes, others, false)| == |Keys(routes) - Keys(others)|
  {
    hide Keep, Keys, Carries, PrefixesDiffer, Key;
    KeptDiffer(routes, others, false);
    KeysCount(Keep(routes, others, false));
    KeepMembers(routes, others, false);
    forall key ensures key in Keys(Keep(routes, others, false)) <==> key in Keys(routes) - Keys(others) {
      LeftKey(routes, others, key);
    }
    assert Keys(Keep(routes, others, false)) == Keys(routes) - Keys(others);
  }

  lemma {:induction false} LeftKey(routes: seq<Route>, others: seq<Route>, key: (Prefix, RouteBody))
    ensures key in Keys(Keep(routes, others, false)) <==> key in Keys(routes) && key !in Keys(others)
  {
    hide Keep, Carries;
    KeepMembers(routes, others, false);
    forall r ensures Carries(others, r) <==> Key(r) in Keys(others) { CarriesIsKey(others, r); }
  }

  lemma {:induction false} SameKeys(a: seq<Route>, b: seq<Route>)
    requires forall r :: r in a <==> r in b
    ensures Keys(a) == Keys(b)
  {
  }

  /** A transaction is prepared exactly for a verified configuration, two snapshots that
      replay, a growing revision, no prefix that changes owner or lease epoch in place, and no
      more changed prefix and digest pairs than the configuration allows. */
  lemma {:induction false} PrepareExactly(given: Config, previous: Snapshot, desired: Snapshot)
    ensures Prepare(given, previous, desired).Some? <==>
      && VerifyConfig(given).Some?
      && Replay(VerifyConfig(given).value, previous).Some? && Replay(VerifyConfig(given).value, desired).Some?
      && previous.body.revision < desired.body.revision
      && KeepsOwners(previous.body.routes, desired.body.routes)
      && Changes(previous.body.routes, desired.body.routes) <= VerifyConfig(given).value.body.maxChanged
  {
    hide VerifyConfig, Keep, Keys, Replays, RouteLess;
    if VerifyConfig(given).Some? {
      ConfigReplays(given);
      var config := VerifyConfig(given).value;
      if Replay(config, previous).Some? && Replay(config, desired).Some? {
        PrepareCounts(config, previous, desired);
      }
    }
  }

  lemma {:induction false} PrepareCounts(config: Config, previous: Snapshot, desired: Snapshot)
    requires VerifyConfig(config) == Some(config) && Replay(config, previous).Some? && Replay(config, desired).Some?
    ensures var before, after := Replay(config, previous).value.body, Replay(config, desired).value.body;
      && before.revision == previous.body.revision && after.revision == desired.body.revision
      && (Conflicts(before.routes, after.routes) <==> !KeepsOwners(previous.body.routes, desired.body.routes))
      && |Keep(after.routes, before.routes, false)| + |Keep(before.routes, after.routes, false)| == Changes(previous.body.routes, desired.body.routes)
  {
    hide VerifyConfig, Keep, Keys, Replays, RouteLess, PrefixesDiffer, Sort;
    SnapshotRoutes(config, previous);
    SnapshotRoutes(config, desired);
    var before, after := Replay(config, previous).value.body.routes, Replay(config, desired).value.body.routes;
    KeptElsewhere(before, after);
    KeptElsewhere(after, before);
    SameKeys(before, previous.body.routes);
    SameKeys(after, desired.body.routes);
  }

  /** What a prepared transaction lists: every route of the two snapshots, once, by whether its
      prefix and digest are in the other one, each list in ascending prefix order. */
  lemma {:induction false} DeltaContents(given: Config, previous: Snapshot, desired: Snapshot)
    requires Prepare(given, previous, desired).Some?
    ensures var t := Prepare(given, previous, desired).value.body; var before, after := previous.body.routes, desired.body.routes;
      && t.revision == desired.body.revision
      && (forall r :: r in t.additions <==> r in after && Key(r) !in Keys(before))
      && (forall r :: r in t.retained <==> r in after && Key(r) in Keys(before))
      && (forall r :: r in t.withdrawals <==> r in before && Key(r) !in Keys(after))
      && Ascending(t.additions, RouteLess) && Ascending(t.retained, RouteLess) && Ascending(t.withdrawals, RouteLess)
      && Ordered(before, t.previous.body.routes) && Ordered(after, t.desired.body.routes)
  {
    hide VerifyConfig, Replays, Keep, Keys, Key, RouteLess, Conflicts, Sort;
    ConfigReplays(given);
    var config := VerifyConfig(given).value;
    var before, after := Replay(config, previous).value.body.routes, Replay(config, desired).value.body.routes;
    ReplayOrders(config, previous);
    ReplayOrders(config, desired);
    SameKeys(before, previous.body.routes);
    SameKeys(after, desired.body.routes);
    KeptByKey(after, before, false);
    KeptByKey(after, before, true);
    KeptByKey(before, after, false);
  }

  lemma {:induction false} ReplayOrders(config: Config, snapshot: Snapshot)
    requires VerifyConfig(config) == Some(config) && Replay(config, snapshot).Some?
    ensures var routes := Replay(config, snapshot).value.body.routes;
      Ordered(snapshot.body.routes, routes) && forall r :: r in routes <==> r in snapshot.body.routes
  {
    hide VerifyConfig, Replays, RouteLess, Sort;
    SealedRoutes(config, snapshot.body.revision, snapshot.body.routes);
    SameMembers(Replay(config, snapshot).value.body.routes, snapshot.body.routes);
  }

  lemma {:induction false} KeptByKey(routes: seq<Route>, others: seq<Route>, carried: bool)
    requires Ascending(routes, RouteLess)
    ensures Ascending(Keep(routes, others, carried), RouteLess)
    ensures forall r :: r in Keep(routes, others, carried) <==> r in routes && ((Key(r) in Keys(others)) == carried)
  {
    hide Keep, Keys, Key, Carries, RouteLess;
    KeepMembers(routes, others, carried);
    forall r ensures Carries(others, r) <==> Key(r) in Keys(others) { CarriesIsKey(others, r); }
    KeepAscends(routes, others, carried);
  }

  lemma {:induction false} KeepAscends(routes: seq<Route>, others: seq<Route>, carried: bool)
    requires Ascending(routes, RouteLess)
    ensures Ascending(Keep(routes, others, carried), RouteLess)
    decreases |routes|
  {
    hide Carries, RouteLess;
    if routes != [] {
      KeepAscends(routes[1..], others, carried);
      KeepMembers(routes[1..], others, carried);
      var rest := Keep(routes[1..], others, carried);
      forall j | 0 <= j < |rest| ensures RouteLess(routes[0], rest[j]) {
        assert rest[j] in routes[1..];
        var k :| 0 <= k < |routes[1..]| && routes[1..][k] == rest[j];
        assert RouteLess(routes[0], routes[k + 1]);
      }
    }
  }

  /** A route is expected back once, in the local table, and advertised to exactly the peers
      that carry its family. */
  lemma {:induction false} ExpectedExactly(config: Config, routes: seq<Route>, i: nat, name: string)
    requires i < |routes|
    ensures var entry := Expected(config, routes)[i];
      && entry.route == routes[i] && entry.localRib
      && (name in entry.advertised <==> exists j :: 0 <= j < |config.body.peers| && config.body.peers[j].name == name
                                                    && routes[i].body.prefix.address.Family() in config.body.peers[j].families)
  {
    var peers, ip := config.body.peers, routes[i].body.prefix.address;
    if name in PeersFor(config, ip) {
      var peer :| peer in peers && ip.Family() in peer.families && peer.name == name;
      var j :| 0 <= j < |peers| && peers[j] == peer;
    }
    if j :| 0 <= j < |peers| && peers[j].name == name && ip.Family() in peers[j].families { assert peers[j] in peers; }
  }

  /** A readback is accepted only of a transaction that preparing its own two snapshots gives
      again, and only if it lists the desired routes, each in the local table and advertised to
      its peers. */
  lemma {:induction false} ReadbackOnlyOfPrepared(given: Config, t: Transaction, readback: seq<Entry>)
    requires VerifyReadback(given, t, readback).Some?
    ensures var prepared := Prepare(given, t.body.previous, t.body.desired);
      && prepared.Some? && prepared.value.digest == t.digest && VerifyReadback(given, t, readback) == Some(t.body.desired)
      && multiset(readback) == multiset(Expected(VerifyConfig(given).value, t.body.desired.body.routes))
  {
    hide VerifyConfig, Prepare, RouteLess, EntryLess, PeersFor, Sort;
    var config, routes, sorted := VerifyConfig(given).value, t.body.desired.body.routes, Sort(readback, EntryLess);
    VerifiedPrepares(given, t.body.previous, t.body.desired);
    RouteOrder();
    SortSorts(readback, EntryLess);
    assert sorted == Expected(config, routes);
  }

  lemma {:induction false} VerifiedPrepares(given: Config, previous: Snapshot, desired: Snapshot)
    requires VerifyConfig(given).Some?
    ensures Prepare(VerifyConfig(given).value, previous, desired) == Prepare(given, previous, desired)
  {
    hide VerifyConfig, Replay, Keep, Conflicts;
    ConfigReplays(given);
  }

  /** A changed copy of a sealed configuration verifies exactly if only the order of its peers
      and exports was changed, and then as what was sealed. */
  lemma {:induction false} TamperedConfig(c: ConfigBody, body: ConfigBody)
    requires SealConfig(c).Some?
    ensures var sealed := SealConfig(c).value; var copy := sealed.(body := body);
      && (VerifyConfig(copy).Some? <==>
            && body == sealed.body.(peers := body.peers, exports := body.exports)
            && multiset(body.peers) == multiset(sealed.body.peers) && multiset(body.exports) == multiset(sealed.body.exports))
      && (VerifyConfig(copy).Some? ==> VerifyConfig(copy).value == sealed)
  {
    hide ValidBody, Unambiguous, PeerLess, PrefixLess, Sort;
    var sealed := SealConfig(c).value;
    SealedConfigVerifies(c);
    PeerOrder();
    PrefixOrder();
    SortSorts(body.peers, PeerLess);
    SortSorts(body.exports, PrefixLess);
    SortSorts(sealed.body.exports, PrefixLess);
    if body == sealed.body.(peers := body.peers, exports := body.exports)
       && multiset(body.peers) == multiset(sealed.body.peers) && multiset(body.exports) == multiset(sealed.body.exports) {
      AscendingIsFixed(sealed.body.peers, PeerLess);
      SortedUnique(sealed.body.peers, Sort(body.peers, PeerLess), PeerLess);
      TotalHasNoTies(sealed.body.exports, PrefixLess);
      assert Sort(sealed.body.exports, PrefixLess) == sealed.body.exports;
      SortedUnique(sealed.body.exports, Sort(body.exports, PrefixLess), PrefixLess);
      ReorderedIsValid(body, sealed.body);
    }
  }

  /** Validity does not depend on the order. */
  lemma {:induction false} ReorderedIsValid(a: ConfigBody, b: ConfigBody)
    requires ValidBody(b) && a == b.(peers := a.peers, exports := a.exports)
    requires multiset(a.peers) == multiset(b.peers) && multiset(a.exports) == multiset(b.exports)
    ensures ValidBody(a)
  {
    hide ValidPeer, ValidId, Unicast, Canonical;
    SameMembers(a.peers, b.peers);
    SameMembers(a.exports, b.exports);
  }
}
