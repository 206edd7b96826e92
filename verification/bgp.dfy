/** BGP advertisement transactions: sealed configurations, routes and snapshots, the bounded
    delta between two snapshots, and the readback that accepts it. A digest is represented
    by what it commits to. */
module Bgp {
  import opened Results
  import opened Orders
  import opened Sorting
  import opened EgressPrefixes
  import opened EgressPools
  import opened EgressAllocation

  const MAX_PEERS := 64
  const MAX_PREFIXES := 65536
  const MAX_CHANGED := 4096
  const MAX_ID := 253

  /** `session` stands for AS numbers, hop and prefix limits and BFD timers, within bounds. */
  datatype Peer = Peer(name: string, address: Ip, failureDomain: string, families: set<Family>, bfd: bool, session: nat)

  /** `restart` stands for the router identifier, path and graceful-restart limits, within bounds. */
  datatype ConfigBody = ConfigBody(revision: nat, instance: string, localAsn: nat, nextHop4: Option<Ip>, nextHop6: Option<Ip>,
                                   peers: seq<Peer>, exports: seq<Prefix>, maxChanged: nat, maxTotal: nat, restart: nat)

  datatype Config = Config(body: ConfigBody, digest: ConfigBody)

  predicate ValidId(value: string) {
    0 < |value| <= MAX_ID && forall c :: c in value ==> !(c < ' ' || '\U{7F}' <= c < '\U{A0}')
  }

  predicate ValidRouteOwner(owner: Owner) {
    ValidId(owner.name) && ValidId(owner.uid) && (owner.namespace.Some? ==> ValidId(owner.namespace.value))
  }

  /** Neither unspecified, multicast nor loopback. */
  predicate Unicast(ip: Ip) {
    && ip.value != 0
    && (ip.V4? ==> !(224 * 0x100_0000 <= ip.value < 240 * 0x100_0000) && ip.value / 0x100_0000 != 127)
    && (ip.V6? ==> ip.value / 0x1_0000_0000_0000_0000_0000_0000_0000 / 0x100 != 0xff && ip.value != 1)
  }

  predicate ValidPeer(peer: Peer) {
    && ValidId(peer.name) && ValidId(peer.failureDomain) && Unicast(peer.address) && peer.families != {}
    && (peer.bfd ==> peer.address.V4?)
  }

  predicate ValidBody(c: ConfigBody) {
    && c.revision != 0 && ValidId(c.instance) && c.localAsn != 0
    && 0 < |c.peers| <= MAX_PEERS && c.exports != []
    && 0 < c.maxChanged <= MAX_CHANGED && 0 < c.maxTotal <= MAX_PREFIXES
    && (c.nextHop4.Some? ==> c.nextHop4.value.V4? && Unicast(c.nextHop4.value))
    && (c.nextHop6.Some? ==> c.nextHop6.value.V6? && Unicast(c.nextHop6.value))
    && (forall peer :: peer in c.peers ==> ValidPeer(peer))
    && (forall p :: p in c.exports ==> Canonical(p) && p.length != 0 && Unicast(p.address))
  }

  predicate PeerLess(a: Peer, b: Peer) { StringLess(a.name, b.name) }

  function Arranged(c: ConfigBody): ConfigBody {
    c.(peers := Sort(c.peers, PeerLess), exports := Sort(c.exports, PrefixLess))
  }

  /** No equal neighbours among sorted peers and exports. */
  predicate Unambiguous(c: ConfigBody) {
    && (forall i :: 0 <= i < |c.peers| - 1 ==> c.peers[i].name != c.peers[i + 1].name && c.peers[i].address != c.peers[i + 1].address)
    && (forall i :: 0 <= i < |c.exports| - 1 ==> c.exports[i] != c.exports[i + 1])
  }

  function SealConfig(c: ConfigBody): Option<Config> {
    if ValidBody(c) && Unambiguous(Arranged(c)) then Some(Config(Arranged(c), Arranged(c))) else None
  }

  function VerifyConfig(config: Config): Option<Config> {
    var replayed := SealConfig(config.body);
    if replayed.Some? && replayed.value.digest == config.digest then replayed else None
  }

  /** What a route advertises; the capsule fingerprints the identity it was issued for. */
  datatype RouteBody = RouteBody(owner: Owner, provider: Provider, revision: nat, epoch: nat, prefix: Prefix, nextHop: Ip,
                                 gateway: string, gatewayUid: string, plan: nat, capsule: Capsule)

  datatype Capsule = Capsule(asn: nat, owner: Owner, provider: Provider, revision: nat, epoch: nat, prefix: Prefix,
                             nextHop: Ip, gatewayUid: string, plan: nat)

  datatype Route = Route(body: RouteBody, digest: RouteBody)

  function Host(ip: Ip): Prefix { Prefix(ip, ip.Width()) }

  function SealRoute(given: Config, owner: Owner, provider: Provider, revision: nat, epoch: nat, ip: Ip,
                     gateway: string, gatewayUid: string, plan: nat): Option<Route>
  {
    var verified := VerifyConfig(given);
    if verified.None? then None
    else
      var config := verified.value.body;
      var nextHop := if ip.V4? then config.nextHop4 else config.nextHop6;
      if nextHop.None? || provider.name != "bgp" || provider.instance != config.instance || revision == 0 || epoch == 0
         || !Unicast(ip) || !ValidRouteOwner(owner) || !ValidId(gateway) || !ValidId(gatewayUid) || plan == 0
         || !(exists allowed :: allowed in config.exports && Contains(allowed, ip))
         || !(exists peer :: peer in config.peers && ip.Family() in peer.families)
      then None
      else
        var capsule := Capsule(config.localAsn, owner, provider, revision, epoch, Host(ip), nextHop.value, gatewayUid, plan);
        var body := RouteBody(owner, provider, revision, epoch, Host(ip), nextHop.value, gateway, gatewayUid, plan, capsule);
        Some(Route(body, body))
  }

  /** A route that came from sealing: its digest commits to all of it. */
  predicate Genuine(route: Route) { route.digest == route.body }

  datatype SnapshotBody = SnapshotBody(revision: nat, config: ConfigBody, routes: seq<Route>)

  datatype Snapshot = Snapshot(body: SnapshotBody, digest: SnapshotBody)

  predicate RouteLess(a: Route, b: Route) { PrefixLess(a.body.prefix, b.body.prefix) }

  /** Sealing the route's own coordinates again gives its digest. */
  predicate Replays(config: Config, route: Route) {
    var r := route.body;
    var again := SealRoute(config, r.owner, r.provider, r.revision, r.epoch, r.prefix.address, r.gateway, r.gatewayUid, r.plan);
    again.Some? && r.prefix == Host(r.prefix.address) && again.value.digest == route.digest
  }

  predicate DistinctPrefixes(routes: seq<Route>) {
    forall i :: 0 <= i < |routes| - 1 ==> routes[i].body.prefix != routes[i + 1].body.prefix
  }

  function SealSnapshot(given: Config, revision: nat, routes: seq<Route>): Option<Snapshot> {
    var config := VerifyConfig(given);
    if config.None? || revision == 0 || |routes| > config.value.body.maxTotal then None
    else if exists route :: route in routes && !Replays(config.value, route) then None
    else
      var sorted := Sort(routes, RouteLess);
      if !DistinctPrefixes(sorted) then None
      else
        var body := SnapshotBody(revision, config.value.digest, sorted);
        Some(Snapshot(body, body))
  }

  function Replay(config: Config, snapshot: Snapshot): Option<Snapshot> {
    if snapshot.body.config != config.digest then None
    else
      var replayed := SealSnapshot(config, snapshot.body.revision, snapshot.body.routes);
      if replayed.Some? && replayed.value.digest == snapshot.digest then replayed else None
  }

  /** A route of the list for this prefix that carries this digest. */
  predicate Carries(routes: seq<Route>, route: Route) {
    exists other :: other in routes && other.body.prefix == route.body.prefix && other.digest == route.digest
  }

  function Keep(routes: seq<Route>, others: seq<Route>, carried: bool): seq<Route> {
    if routes == [] then []
    else (if Carries(others, routes[0]) == carried then [routes[0]] else []) + Keep(routes[1..], others, carried)
  }

  datatype TransactionBody = TransactionBody(revision: nat, previous: Snapshot, desired: Snapshot,
                                             additions: seq<Route>, withdrawals: seq<Route>, retained: seq<Route>)

  datatype Transaction = Transaction(body: TransactionBody, digest: TransactionBody)

  /** Some prefix would change owner or lease epoch in place. */
  predicate Conflicts(previous: seq<Route>, desired: seq<Route>) {
    exists a, b :: a in previous && b in desired && a.body.prefix == b.body.prefix
      && (a.body.owner != b.body.owner || a.body.epoch != b.body.epoch)
  }

  function Prepare(given: Config, previous: Snapshot, desired: Snapshot): Option<Transaction> {
    var config := VerifyConfig(given);
    if config.None? then None
    else
      var earlier, later := Replay(config.value, previous), Replay(config.value, desired);
      if earlier.None? || later.None? || later.value.body.revision <= earlier.value.body.revision then None
      else if Conflicts(earlier.value.body.routes, later.value.body.routes) then None
      else
        var before, after := earlier.value.body.routes, later.value.body.routes;
        var additions, withdrawals := Keep(after, before, false), Keep(before, after, false);
        if |additions| + |withdrawals| > config.value.body.maxChanged then None
        else
          var body := TransactionBody(later.value.body.revision, earlier.value, later.value, additions, withdrawals, Keep(after, before, true));
          Some(Transaction(body, body))
  }

  datatype Entry = Entry(route: Route, localRib: bool, advertised: set<string>)

  predicate EntryLess(a: Entry, b: Entry) { RouteLess(a.route, b.route) }

  function PeersFor(config: Config, ip: Ip): set<string> {
    set peer | peer in config.body.peers && ip.Family() in peer.families :: peer.name
  }

  /** The one readback a transaction expects. */
  function Expected(config: Config, routes: seq<Route>): (entries: seq<Entry>)
    ensures |entries| == |routes|
  {
    seq(|routes|, i requires 0 <= i < |routes| => Entry(routes[i], true, PeersFor(config, routes[i].body.prefix.address)))
  }

  function VerifyReadback(given: Config, t: Transaction, readback: seq<Entry>): Option<Snapshot> {
    var config := VerifyConfig(given);
    if config.None? then None
    else
      var replayed := Prepare(config.value, t.body.previous, t.body.desired);
      if replayed.None? || replayed.value.digest != t.digest then None
      else
        var sorted, routes := Sort(readback, EntryLess), t.body.desired.body.routes;
        if |readback| != |routes| || |sorted| != |routes| then None
        else if exists i :: 0 <= i < |routes| && (sorted[i].route != routes[i] || !sorted[i].localRib
                                                 || sorted[i].advertised != PeersFor(config.value, routes[i].body.prefix.address)) then None
        else Some(t.body.desired)
  }
}
