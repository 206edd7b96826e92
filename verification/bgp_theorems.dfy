/** What sealing, preparing and reading back guarantee. */
module BgpTheorems {
  import opened Results
  import opened Orders
  import opened Sorting
  import opened EgressPrefixes
  import opened EgressAllocation
  import opened Bgp

  lemma {:induction false} PeerOrder()
    ensures StrictWeak(PeerLess)
  {
    hide StringLess;
    StringOrder();
    TotalIsWeak(StringLess);
    forall a, b, c | !PeerLess(a, b) && !PeerLess(b, c) ensures !PeerLess(a, c) {
      assert !StringLess(a.name, b.name) && !StringLess(b.name, c.name);
    }
  }

  lemma {:induction false} RouteOrder()
    ensures StrictWeak(RouteLess) && StrictWeak(EntryLess)
  {
    hide PrefixLess;
    PrefixOrder();
    forall a, b, c | !RouteLess(a, b) && !RouteLess(b, c) ensures !RouteLess(a, c) {
      assert !PrefixLess(a.body.prefix, b.body.prefix) && !PrefixLess(b.body.prefix, c.body.prefix);
    }
    forall a, b, c | !EntryLess(a, b) && !EntryLess(b, c) ensures !EntryLess(a, c) {
      assert !RouteLess(a.route, b.route) && !RouteLess(b.route, c.route);
    }
  }

  lemma {:induction false} WeakTransitive<T(!new)>(lt: (T, T) -> bool, a: T, b: T, c: T)
    requires StrictWeak(lt) && lt(a, b) && lt(b, c)
    ensures lt(a, c)
  {
    assert !lt(c, b);
  }

  /** Strictly ordered neighbours make a strictly ordered list. */
  lemma {:induction false} NeighboursAscend<T(!new)>(s: seq<T>, lt: (T, T) -> bool)
    requires StrictWeak(lt) && forall i :: 0 <= i < |s| - 1 ==> lt(s[i], s[i + 1])
    ensures Ascending(s, lt)
    decreases |s|
  {
    hide StrictWeak;
    if |s| > 1 {
      var before := s[..|s| - 1];
      NeighboursAscend(before, lt);
      forall i | 0 <= i < |before| ensures lt(s[i], s[|s| - 1]) {
        assert before[i] == s[i];
        if i < |before| - 1 {
          assert lt(before[i], before[|before| - 1]);
          WeakTransitive(lt, s[i], s[|before| - 1], s[|s| - 1]);
        }
      }
      forall i, j | 0 <= i < j < |s| ensures lt(s[i], s[j]) {
        if j < |before| { assert lt(before[i], before[j]); }
      }
    }
  }

  /** A strictly ordered list is sorted, without ties, and sorting leaves it alone. */
  lemma {:induction false} AscendingIsFixed<T(!new)>(s: seq<T>, lt: (T, T) -> bool)
    requires StrictWeak(lt) && Ascending(s, lt)
    ensures Sorted(s, lt) && NoTies(s, lt) && Sort(s, lt) == s
  {
    forall i, j | 0 <= i < j < |s| ensures !lt(s[j], s[i]) { assert lt(s[i], s[j]); }
    forall x, y | x in s && y in s && !lt(x, y) && !lt(y, x) ensures x == y {
      var i :| 0 <= i < |s| && s[i] == x;
      var j :| 0 <= j < |s| && s[j] == y;
    }
    SortOfSorted(s, lt);
  }

  lemma {:induction false} PeersAscend(peers: seq<Peer>)
    requires Sorted(peers, PeerLess) && forall i :: 0 <= i < |peers| - 1 ==> peers[i].name != peers[i + 1].name
    ensures Ascending(peers, PeerLess)
  {
    hide StringLess;
    PeerOrder();
    StringOrder();
    forall i | 0 <= i < |peers| - 1 ensures PeerLess(peers[i], peers[i + 1]) {
      assert !PeerLess(peers[i + 1], peers[i]);
    }
    NeighboursAscend(peers, PeerLess);
  }

  /** A verified configuration is its own replay, with strictly ascending peer names. */
  lemma {:induction false} ConfigReplays(given: Config)
    requires VerifyConfig(given).Some?
    ensures var config := VerifyConfig(given).value;
      && VerifyConfig(config) == Some(config) && config.digest == config.body && ValidBody(config.body)
      && Ascending(config.body.peers, PeerLess)
  {
    hide ValidBody, Arranged, Unambiguous;
    ArrangedIsFixed(given.body);
    ArrangedIsValid(given.body);
  }

  lemma {:induction false} ArrangedIsFixed(c: ConfigBody)
    requires Unambiguous(Arranged(c))
    ensures Arranged(Arranged(c)) == Arranged(c) && Ascending(Arranged(c).peers, PeerLess)
  {
    hide PeerLess, PrefixLess, Sort;
    PeerOrder();
    PrefixOrder();
    SortSorts(c.peers, PeerLess);
    SortSorts(c.exports, PrefixLess);
    PeersAscend(Arranged(c).peers);
    AscendingIsFixed(Arranged(c).peers, PeerLess);
    TotalHasNoTies(Arranged(c).exports, PrefixLess);
    SortOfSorted(Arranged(c).exports, PrefixLess);
  }

  lemma {:induction false} ArrangedIsValid(c: ConfigBody)
    requires ValidBody(c)
    ensures ValidBody(Arranged(c))
  {
    hide ValidPeer, ValidId, Canonical, Unicast, PeerLess, PrefixLess, Sort;
    PeerOrder();
    PrefixOrder();
    SortSorts(c.peers, PeerLess);
    SortSorts(c.exports, PrefixLess);
    SameMembers(Arranged(c).peers, c.peers);
    SameMembers(Arranged(c).exports, c.exports);
  }

  lemma {:induction false} RoutesAscend(routes: seq<Route>)
    requires Sorted(routes, RouteLess) && DistinctPrefixes(routes)
    ensures Ascending(routes, RouteLess)
  {
    RouteOrder();
    PrefixOrder();
    hide PrefixLess;
    forall i | 0 <= i < |routes| - 1 ensures RouteLess(routes[i], routes[i + 1]) {
      assert !RouteLess(routes[i + 1], routes[i]);
    }
    NeighboursAscend(routes, RouteLess);
  }

  /** Sealing a list: its routes in strictly ascending prefix order. */
  lemma {:induction false} SealedRoutes(config: Config, revision: nat, routes: seq<Route>)
    requires SealSnapshot(config, revision, routes).Some?
    ensures var sealed := SealSnapshot(config, revision, routes).value.body.routes;
      Ascending(sealed, RouteLess) && multiset(sealed) == multiset(routes)
  {
    hide VerifyConfig, Replays, RouteLess;
    RouteOrder();
    SortSorts(routes, RouteLess);
    RoutesAscend(Sort(routes, RouteLess));
  }

  /** A replayed snapshot is its own replay. */
  lemma {:induction false} SnapshotReplays(config: Config, snapshot: Snapshot)
    requires VerifyConfig(config) == Some(config) && Replay(config, snapshot).Some?
    ensures var replayed := Replay(config, snapshot).value;
      Replay(config, replayed) == Some(replayed) && Ascending(replayed.body.routes, RouteLess)
  {
    hide VerifyConfig, Replays, RouteLess;
    RouteOrder();
    SealedRoutes(config, snapshot.body.revision, snapshot.body.routes);
    var sealed := Replay(config, snapshot).value.body.routes;
    AscendingIsFixed(sealed, RouteLess);
    SameMembers(sealed, snapshot.body.routes);
  }

  /** Preparing again from a transaction's own snapshots reproduces it. */
  lemma {:induction false} TransactionReplays(given: Config, previous: Snapshot, desired: Snapshot)
    requires Prepare(given, previous, desired).Some?
    ensures var t := Prepare(given, previous, desired).value; var config := VerifyConfig(given).value;
      && Prepare(config, t.body.previous, t.body.desired) == Some(t) && t.digest == t.body
      && Ascending(t.body.previous.body.routes, RouteLess) && Ascending(t.body.desired.body.routes, RouteLess)
  {
    hide VerifyConfig, Replay, Conflicts, Keep, RouteLess;
    ConfigReplays(given);
    var config := VerifyConfig(given).value;
    SnapshotReplays(config, previous);
    SnapshotReplays(config, desired);
  }

  lemma {:induction false} KeepMembers(routes: seq<Route>, others: seq<Route>, carried: bool)
    ensures forall r :: r in Keep(routes, others, carried) <==> r in routes && Carries(others, r) == carried
    decreases |routes|
  {
    hide Carries;
    if routes != [] {
      KeepMembers(routes[1..], others, carried);
      assert routes == [routes[0]] + routes[1..];
    }
  }

  lemma {:induction false} KeepSplits(routes: seq<Route>, others: seq<Route>)
    ensures |Keep(routes, others, true)| + |Keep(routes, others, false)| == |routes|
    decreases |routes|
  {
    hide Carries;
    if routes != [] { KeepSplits(routes[1..], others); }
  }

  /** What a route is compared by. */
  function Key(r: Route): (Prefix, RouteBody) { (r.body.prefix, r.digest) }

  function Keys(routes: seq<Route>): set<(Prefix, RouteBody)> { set r | r in routes :: Key(r) }

  lemma {:induction false} CarriesIsKey(routes: seq<Route>, route: Route)
    ensures Carries(routes, route) <==> Key(route) in Keys(routes)
  {
  }

  predicate PrefixesDiffer(routes: seq<Route>) {
    forall i, j :: 0 <= i < j < |routes| ==> routes[i].body.prefix != routes[j].body.prefix
  }

  lemma {:induction false} AscendingPrefixesDiffer(routes: seq<Route>)
    requires Ascending(routes, RouteLess)
    ensures PrefixesDiffer(routes)
  {
    hide PrefixLess;
    PrefixOrder();
    forall i, j | 0 <= i < j < |routes| ensures routes[i].body.prefix != routes[j].body.prefix {
      assert RouteLess(routes[i], routes[j]);
    }
  }

  lemma {:induction false} KeptDiffer(routes: seq<Route>, others: seq<Route>, carried: bool)
    requires PrefixesDiffer(routes)
    ensures PrefixesDiffer(Keep(routes, others, carried))
    decreases |routes|
  {
    hide Carries;
    if routes != [] {
      KeptDiffer(routes[1..], others, carried);
      KeepMembers(routes[1..], others, carried);
      var rest := Keep(routes[1..], others, carried);
      forall j | 0 <= j < |rest| ensures rest[j].body.prefix != routes[0].body.prefix {
        assert rest[j] in routes[1..];
      }
    }
  }

  lemma {:induction false} KeysCount(routes: seq<Route>)
    requires PrefixesDiffer(routes)
    ensures |Keys(routes)| == |routes|
    decreases |routes|
  {
    if routes != [] {
      var init, last := routes[..|routes| - 1], routes[|routes| - 1];
      KeysCount(init);
      assert routes == init + [last];
      assert Keys(routes) == Keys(init) + {Key(last)};
      assert forall r :: r in init ==> r.body.prefix != last.body.prefix;
    }
  }

  lemma {:induction false} KeptKeys(routes: seq<Route>, others: seq<Route>)
    ensures Keys(Keep(routes, others, true)) == Keys(routes) * Keys(others)
  {
    hide Carries, Keep, Key;
    KeepMembers(routes, others, true);
    forall key ensures key in Keys(Keep(routes, others, true)) <==> key in Keys(routes) && key in Keys(others) {
      if key in Keys(routes) {
        var r :| r in routes && Key(r) == key;
        CarriesIsKey(others, r);
      }
      if key in Keys(Keep(routes, others, true)) {
        var r :| r in Keep(routes, others, true) && Key(r) == key;
        CarriesIsKey(others, r);
      }
    }
  }

  /** Both sides keep equally many routes. */
  lemma {:induction false} RetainedAgree(before: seq<Route>, after: seq<Route>)
    requires PrefixesDiffer(before) && PrefixesDiffer(after)
    ensures |Keep(before, after, true)| == |Keep(after, before, true)|
  {
    hide PrefixesDiffer, Keep, Keys;
    KeptDiffer(before, after, true);
    KeptDiffer(after, before, true);
    KeysCount(Keep(before, after, true));
    KeysCount(Keep(after, before, true));
    KeptKeys(before, after);
    KeptKeys(after, before);
    assert Keys(before) * Keys(after) == Keys(after) * Keys(before);
  }

  /** Routes of both lists that compare as equal are equal. */
  predicate Agreed(before: seq<Route>, after: seq<Route>) {
    forall a, b :: a in before && b in after && Key(a) == Key(b) ==> a == b
  }

  /** What is left of the old routes, with the additions. */
  function Patched(before: seq<Route>, withdrawals: seq<Route>, additions: seq<Route>): set<Route> {
    Elements(before) - Elements(withdrawals) + Elements(additions)
  }

  lemma {:induction false} DeltaMembers(before: seq<Route>, after: seq<Route>)
    ensures var additions, withdrawals := Keep(after, before, false), Keep(before, after, false);
      && Elements(withdrawals) <= Elements(before) && Elements(additions) !! Elements(before)
      && forall r :: r in Patched(before, withdrawals, additions) <==>
           || (r in before && Key(r) in Keys(after)) || (r in after && Key(r) !in Keys(before))
  {
    hide Carries, Keep, Key;
    KeepMembers(after, before, false);
    KeepMembers(before, after, false);
    forall r ensures Carries(after, r) <==> Key(r) in Keys(after) { CarriesIsKey(after, r); }
    forall r ensures Carries(before, r) <==> Key(r) in Keys(before) { CarriesIsKey(before, r); }
    assert forall r :: r in before ==> Key(r) in Keys(before);
  }

  lemma {:induction false} PatchedIsAfter(before: seq<Route>, after: seq<Route>)
    requires PrefixesDiffer(after)
    ensures Patched(before, Keep(before, after, false), Keep(after, before, false)) == Elements(after) <==> Agreed(before, after)
  {
    hide Carries, Keep, Patched;
    DeltaMembers(before, after);
    var patched := Patched(before, Keep(before, after, false), Keep(after, before, false));
    if Agreed(before, after) {
      forall r ensures r in patched <==> r in Elements(after) {
        if r in before && Key(r) in Keys(after) { var b :| b in after && Key(b) == Key(r); }
        if r in after && Key(r) in Keys(before) { var a :| a in before && Key(a) == Key(r); }
      }
    }
    if patched == Elements(after) {
      forall a, b | a in before && b in after && Key(a) == Key(b) ensures a == b {
        assert Key(a) in Keys(after) && a in patched;
        assert a in Elements(after);
      }
    }
  }

  lemma {:induction false} SnapshotRoutes(config: Config, snapshot: Snapshot)
    requires VerifyConfig(config) == Some(config) && Replay(config, snapshot).Some?
    ensures var routes := Replay(config, snapshot).value.body.routes;
      PrefixesDiffer(routes) && forall r :: r in routes <==> r in snapshot.body.routes
  {
    hide VerifyConfig, Replays, RouteLess;
    SealedRoutes(config, snapshot.body.revision, snapshot.body.routes);
    var routes := Replay(config, snapshot).value.body.routes;
    AscendingPrefixesDiffer(routes);
    SameMembers(routes, snapshot.body.routes);
  }

  /** Every route of either side is counted once, withdrawals are old routes, additions are
      not, and the change is within the budget. Removing the withdrawals and adding the
      additions gives the desired routes exactly when routes of equal prefix and digest in
      the two snapshots are equal. */
  lemma {:induction false} DeltaReachesDesired(given: Config, previous: Snapshot, desired: Snapshot)
    requires Prepare(given, previous, desired).Some?
    ensures var t := Prepare(given, previous, desired).value.body;
      var before, after := t.previous.body.routes, t.desired.body.routes;
      && Elements(t.withdrawals) <= Elements(before) && Elements(t.additions) !! Elements(before)
      && |t.retained| + |t.additions| == |after| && |t.retained| + |t.withdrawals| == |before|
      && |t.additions| + |t.withdrawals| <= VerifyConfig(given).value.body.maxChanged
      && (Patched(before, t.withdrawals, t.additions) == Elements(after) <==> Agreed(previous.body.routes, desired.body.routes))
  {
    hide VerifyConfig, Replay, Conflicts, Keep, Patched, PrefixesDiffer, Key;
    ConfigReplays(given);
    SnapshotRoutes(VerifyConfig(given).value, previous);
    SnapshotRoutes(VerifyConfig(given).value, desired);
    var t := Prepare(given, previous, desired).value.body;
    var before, after := t.previous.body.routes, t.desired.body.routes;
    KeepSplits(after, before);
    KeepSplits(before, after);
    RetainedAgree(before, after);
    DeltaMembers(before, after);
    PatchedIsAfter(before, after);
    assert Agreed(before, after) <==> Agreed(previous.body.routes, desired.body.routes);
  }

  /** Two accepted routes of equal digest can differ only in next hop and capsule, which
      sealing recomputes instead of reading. */
  lemma {:induction false} EqualDigestsNearlyEqual(config: Config, a: Route, b: Route)
    requires Replays(config, a) && Replays(config, b) && a.digest == b.digest
    ensures a.body == b.body.(nextHop := a.body.nextHop, capsule := a.body.capsule)
  {
    hide VerifyConfig, Unicast, ValidRouteOwner, ValidId, Contains;
  }

  lemma {:induction false} SnapshotAccepted(config: Config, snapshot: Snapshot, route: Route)
    requires VerifyConfig(config) == Some(config) && Replay(config, snapshot).Some? && route in snapshot.body.routes
    ensures Replays(config, route)
  {
    hide VerifyConfig, Replays;
  }

  /** The stored fields no digest is checked against. */
  predicate SameHopAndCapsule(before: seq<Route>, after: seq<Route>) {
    forall a, b :: a in before && b in after && Key(a) == Key(b) ==> a.body.nextHop == b.body.nextHop && a.body.capsule == b.body.capsule
  }

  /** The delta of two accepted snapshots is exact if and only if their common routes store the
      same next hop and capsule, and so always between routes as sealing produces them. */
  lemma {:induction false} DeltaIsExact(given: Config, previous: Snapshot, desired: Snapshot)
    requires Prepare(given, previous, desired).Some?
    ensures var t := Prepare(given, previous, desired).value.body;
      var exact := Patched(t.previous.body.routes, t.withdrawals, t.additions) == Elements(t.desired.body.routes);
      && (exact <==> SameHopAndCapsule(previous.body.routes, desired.body.routes))
      && ((forall r :: r in previous.body.routes || r in desired.body.routes ==> Genuine(r)) ==> exact)
  {
    hide VerifyConfig, Replay, Conflicts, Keep, Patched, Replays;
    DeltaReachesDesired(given, previous, desired);
    ConfigReplays(given);
    var config := VerifyConfig(given).value;
    forall a, b | a in previous.body.routes && b in desired.body.routes && Key(a) == Key(b)
      ensures a == b <==> a.body.nextHop == b.body.nextHop && a.body.capsule == b.body.capsule
    {
      SnapshotAccepted(config, previous, a);
      SnapshotAccepted(config, desired, b);
      EqualDigestsNearlyEqual(config, a, b);
    }
  }

  /** Any change of a route's stored next hop is accepted and retained: the delta is empty
      although the desired routes are not the previous ones. */
  lemma {:induction false} NextHopChangeIsInvisible(config: Config, route: Route, hop: Ip)
    requires VerifyConfig(config) == Some(config) && Replays(config, route) && hop != route.body.nextHop
    ensures var changed := route.(body := route.body.(nextHop := hop));
      var previous, desired := SealSnapshot(config, 1, [route]), SealSnapshot(config, 2, [changed]);
      && previous.Some? && desired.Some?
      && var t := Prepare(config, previous.value, desired.value);
      && t.Some? && t.value.body.additions == [] && t.value.body.withdrawals == [] && t.value.body.retained == [changed]
      && t.value.body.previous.body.routes == [route] && t.value.body.desired.body.routes == [changed]
      && !Agreed([route], [changed])
  {
    hide VerifyConfig, RouteLess;
    var changed := route.(body := route.body.(nextHop := hop));
    ConfigReplays(config);
    assert Replays(config, changed);
    OneRoute(config, 1, route);
    OneRoute(config, 2, changed);
    assert Key(route) == Key(changed);
    CarriesIsKey([route], changed);
    CarriesIsKey([changed], route);
    assert Keep([changed], [route], false) == [] && Keep([route], [changed], false) == [] && Keep([changed], [route], true) == [changed];
  }

  lemma {:induction false} OneRoute(config: Config, revision: nat, route: Route)
    requires VerifyConfig(config) == Some(config) && config.digest == config.body && ValidBody(config.body)
    requires Replays(config, route) && revision != 0
    ensures var body := SnapshotBody(revision, config.digest, [route]);
      && SealSnapshot(config, revision, [route]) == Some(Snapshot(body, body))
      && Replay(config, Snapshot(body, body)) == Some(Snapshot(body, body))
  {
    hide VerifyConfig, Replays, RouteLess;
    assert Sort([route], RouteLess) == [route];
  }

  predicate Announces(routes: seq<Route>, prefix: Prefix, owner: Owner, epoch: nat) {
    exists r :: r in routes && r.body.prefix == prefix && r.body.owner == owner && r.body.epoch == epoch
  }

  predicate Lists(routes: seq<Route>, prefix: Prefix) { exists r :: r in routes && r.body.prefix == prefix }

  /** Transactions that follow one another. */
  ghost predicate TransactionChain(given: Config, chain: seq<Transaction>) {
    && (forall i :: 0 <= i < |chain| ==> exists p, d :: Prepare(given, p, d) == Some(chain[i]))
    && (forall i :: 0 <= i < |chain| - 1 ==> chain[i].body.desired == chain[i + 1].body.previous)
  }

  lemma {:induction false} StepKeepsOwner(given: Config, t: Transaction, prefix: Prefix, owner: Owner, epoch: nat)
    requires exists p, d :: Prepare(given, p, d) == Some(t)
    requires Announces(t.body.previous.body.routes, prefix, owner, epoch) && Lists(t.body.desired.body.routes, prefix)
    ensures Announces(t.body.desired.body.routes, prefix, owner, epoch)
  {
    hide VerifyConfig, Replay, Keep;
    var r :| r in t.body.previous.body.routes && r.body.prefix == prefix && r.body.owner == owner && r.body.epoch == epoch;
    var n :| n in t.body.desired.body.routes && n.body.prefix == prefix;
  }

  /** Along any chain of transactions, a prefix listed in every snapshot keeps its owner
      and lease epoch: they change only across a snapshot that lacks it. */
  lemma {:induction false} OwnershipChangesOnlyThroughAbsence(given: Config, chain: seq<Transaction>, prefix: Prefix, owner: Owner, epoch: nat)
    requires chain != [] && TransactionChain(given, chain)
    requires Announces(chain[0].body.previous.body.routes, prefix, owner, epoch)
    requires forall i :: 0 <= i < |chain| ==> Lists(chain[i].body.desired.body.routes, prefix)
    ensures Announces(chain[|chain| - 1].body.desired.body.routes, prefix, owner, epoch)
    decreases |chain|
  {
    hide Announces, Lists, Prepare;
    StepKeepsOwner(given, chain[0], prefix, owner, epoch);
    if |chain| > 1 {
      var rest := chain[1..];
      forall i | 0 <= i < |rest| ensures exists p, d :: Prepare(given, p, d) == Some(rest[i]) { assert rest[i] == chain[i + 1]; }
      forall i | 0 <= i < |rest| - 1 ensures rest[i].body.desired == rest[i + 1].body.previous { assert chain[i + 1].body.desired == chain[i + 2].body.previous; }
      forall i | 0 <= i < |rest| ensures Lists(rest[i].body.desired.body.routes, prefix) { assert rest[i] == chain[i + 1]; }
      assert chain[0].body.desired == chain[1].body.previous;
      OwnershipChangesOnlyThroughAbsence(given, rest, prefix, owner, epoch);
    }
  }

  lemma {:induction false} ExpectedAscends(config: Config, routes: seq<Route>)
    requires Ascending(routes, RouteLess)
    ensures Ascending(Expected(config, routes), EntryLess)
  {
    hide RouteLess, PeersFor;
  }

  /** The readback of a prepared transaction is accepted exactly when it is a permutation of
      the one expected list, whatever its order; the replay inside always succeeds. */
  lemma {:induction false} ReadbackIsExact(given: Config, previous: Snapshot, desired: Snapshot, readback: seq<Entry>)
    requires Prepare(given, previous, desired).Some?
    ensures var t := Prepare(given, previous, desired).value; var config := VerifyConfig(given).value;
      VerifyReadback(given, t, readback) ==
        if multiset(readback) == multiset(Expected(config, t.body.desired.body.routes)) then Some(t.body.desired) else None
  {
    hide VerifyConfig, Prepare, RouteLess, EntryLess, PeersFor;
    RouteOrder();
    TransactionReplays(given, previous, desired);
    PreparedConfig(given, previous, desired);
    var t, config := Prepare(given, previous, desired).value, VerifyConfig(given).value;
    var routes := t.body.desired.body.routes;
    var expected := Expected(config, routes);
    ExpectedAscends(config, routes);
    AscendingIsFixed(expected, EntryLess);
    SortSorts(readback, EntryLess);
    var sorted := Sort(readback, EntryLess);
    if multiset(readback) == multiset(expected) {
      SameMembers(readback, expected);
      SortedUnique(expected, sorted, EntryLess);
    } else {
      assert sorted != expected;
      if |sorted| == |routes| {
        var i :| 0 <= i < |routes| && sorted[i] != expected[i];
      }
    }
  }

  lemma {:induction false} PreparedConfig(given: Config, previous: Snapshot, desired: Snapshot)
    requires Prepare(given, previous, desired).Some?
    ensures VerifyConfig(given).Some?
  {
    hide Replay, Conflicts, Keep;
  }
}
