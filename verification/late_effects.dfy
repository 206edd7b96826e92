/** Requests that outlive their command: the plugin gives up waiting, and the agent carries the
    request out at any later time, beside whatever then runs. */
module LateEffects {
  import opened Results
  import opened Attachments
  import opened JournalModel
  import opened Lifecycle
  import opened LifecycleSafety
  import opened DeferredDeletes
  import opened ConcurrentCommands
  import opened ConcurrentSteps
  import opened ConcurrentSafety

  /** The running commands and the requests still on their way. */
  datatype Backlog = Backlog(cluster: Cluster, late: multiset<Operation>)

  datatype BacklogEvent = Now(event: ClusterEvent) | Deliver(op: Operation, env: Env)

  /** The request the next step of this place makes. */
  function RequestOf(pc: Pc): Option<Operation> {
    match pc
    case DeleteBegin(key, _) => Some(BeginDelete(key))
    case DeleteComplete(key, _) => Some(CompleteDelete(key))
    case AddInspect(spec) => Some(Inspect(spec.key))
    case AddRecoverComplete(spec) => Some(CompleteAbort(spec.key))
    case AddPrepare(spec) => Some(Prepare(spec))
    case AddCommit(record) => Some(Commit(record.spec.key))
    case AbortBegin(record, _) => Some(BeginAbort(record.spec.key))
    case AbortComplete(key) => Some(CompleteAbort(key))
    case CollectList(network, _, after, _) => Some(List(network, after, MAX_LIST_RECORDS))
    case CollectAborted(key, _) => Some(CompleteAbort(key))
    case _ => None
  }

  /** What a step adds to the requests on their way: its own, if the exchange was given up
      before the agent acted. */
  function GivenUp(c: Cluster, e: ClusterEvent): multiset<Operation> {
    if e.Advance? && e.slot in c.running && !Blocked(c, e.slot) && e.answers.lost && !e.answers.acts && RequestOf(c.running[e.slot]).Some?
    then multiset{RequestOf(c.running[e.slot]).value}
    else multiset{}
  }

  /** Requests on their way end with the agent they were sent to. */
  predicate EndsAgent(e: ClusterEvent) { e.Restart? || e == Agent(Runs.Crash) }

  function Delivery(env: Env): Answers { Answers(env, false, false, false) }

  ghost function NextBacklog(node: Node, b: Backlog, e: BacklogEvent): Backlog
    requires ValidProvider(node.site.provider)
  {
    match e
    case Now(event) =>
      Backlog(NextCluster(node, b.cluster, event), if EndsAgent(event) then multiset{} else b.late + GivenUp(b.cluster, event))
    case Deliver(op, env) =>
      if op !in b.late then b
      else Backlog(b.cluster.(shared := Tick(Transact(node, b.cluster.shared, op, Delivery(env)).0)), b.late - multiset{op})
  }

  ghost function RunBacklog(node: Node, b: Backlog, events: seq<BacklogEvent>): Backlog
    requires ValidProvider(node.site.provider)
    decreases |events|
  {
    if events == [] then b else RunBacklog(node, NextBacklog(node, b, events[0]), events[1..])
  }

  const FirstBacklog := Backlog(FirstCluster, multiset{})

  /** The request completes the removal of a record of the journal as it is now. */
  predicate Removes(j: Journal, op: Operation, key: Key) {
    && j.Serving() && ValidKey(key) && key in j.table
    && ((op == CompleteAbort(key) && j.table[key].phase == Aborting) || (op == CompleteDelete(key) && j.table[key].phase == Phase.Deleting))
  }

  /** A pair of the key is alive, or an ADD is about to create it or counts on it. */
  ghost predicate InUse(c: Cluster, key: Key) {
    !NoLink(c.shared, key) || exists s :: s in c.running && Links(c.running[s]) && HandKey(c.running[s]) == Some(key)
  }

  /** What makes a late request dangerous: it removes a record in use. */
  ghost predicate Exposed(c: Cluster, op: Operation) {
    c.shared.agent.open && exists key :: Removes(c.shared.agent.journal, op, key) && InUse(c, key)
  }

  lemma {:induction false} RemovalIsMove(node: Node, h: Host, op: Operation, a: Answers)
    requires ValidProvider(node.site.provider)
    ensures var move := MoveOf(node, h, op, a);
      && (move.Move? && move.next.None? ==> Removes(h.agent.journal, op, move.key))
      && (forall key :: Removes(h.agent.journal, op, key) ==> move == Runs.Move(key, None))
  {
    hide LegacyBlocked, ValidKey, ValidSpec, Allocate;
  }

  /** A record in hand stays held unless it is removed. */
  lemma {:induction false} HeldUnlessRemoved(node: Node, h: Host, op: Operation, a: Answers, r: Record)
    requires ValidProvider(node.site.provider) && Held(h, r) && !Removes(h.agent.journal, op, r.spec.key)
    requires Runs.Inv(node.site, h.agent)
    ensures Held(Transact(node, h, op, a).0, r)
  {
    hide Apply, ValidTable, Runs.PlannedMove, Removes;
    if h.agent.open {
      var env := a.env.(newId := h.agent.nextId);
      Runs.ApplyCases(node.site, h.agent.journal, h.agent.disk, CURRENT_SCHEMA, op, env);
      RemovalIsMove(node, h, op, a);
      var move := MoveOf(node, h, op, a);
      if move.Move? && move.key != r.spec.key { HeldElsewhere(h, r, move.key, move.next, Transact(node, h, op, a).0.agent); }
    }
  }

  lemma {:induction false} SlotDelivered(node: Node, c: Cluster, op: Operation, a: Answers, slot: Slot)
    requires ValidProvider(node.site.provider) && ClusterInv(node, c) && slot in c.running && !Exposed(c, op)
    ensures SlotSafe(c.(shared := Tick(Transact(node, c.shared, op, a).0)), slot)
  {
    hide Transact, Runs.Inv, LinksBacked, Removes, Held, HandKey;
    TransactFrame(node, c.shared, op, a);
    assert SlotSafe(c, slot);
    if Links(c.running[slot]) {
      var r := c.running[slot].record;
      LinksHold(At(c, slot));
      HeldShared(c, slot, r);
      if c.shared.agent.open { HeldUnlessRemoved(node, c.shared, op, a, r); } else { ClosedTransact(node, c.shared, op, a); }
      HeldTicks(c.(shared := Tick(Transact(node, c.shared, op, a).0)), slot, Transact(node, c.shared, op, a).0, r);
    }
  }

  lemma {:induction false} ClosedTransact(node: Node, h: Host, op: Operation, a: Answers)
    requires ValidProvider(node.site.provider) && !h.agent.open
    ensures Transact(node, h, op, a).0 == h
  {
  }

  lemma {:induction false} LinksHold(h: Host)
    requires Links(h.pc) && PcSafe(h)
    ensures Held(h, h.pc.record) && HandKey(h.pc) == Some(h.pc.record.spec.key)
  {
  }

  lemma {:induction false} HeldShared(c: Cluster, slot: Slot, r: Record)
    requires slot in c.running
    ensures Held(At(c, slot), r) <==> Held(c.shared, r)
  {
  }

  lemma {:induction false} HeldTicks(c: Cluster, slot: Slot, h: Host, r: Record)
    requires slot in c.running && c.shared == Tick(h)
    ensures Held(At(c, slot), r) <==> Held(h, r)
  {
  }

  /** A late request that removes no record in use keeps everything interleaved commands keep. */
  lemma {:induction false} DeliverySafe(node: Node, c: Cluster, op: Operation, a: Answers)
    requires ValidProvider(node.site.provider) && ClusterInv(node, c) && !Exposed(c, op)
    ensures ClusterInv(node, c.(shared := Tick(Transact(node, c.shared, op, a).0)))
  {
    hide Transact, PcSafe, PcQueued, Placed, Compatible, Runs.Inv, LinksBacked, Removes, NoLink, SlotSafe;
    var h := c.shared;
    var h' := Transact(node, h, op, a).0;
    RemovalIsMove(node, h, op, a);
    MoveKeepsLinks(node, h, op, a);
    RestingInv(node, h');
    TickSafe(node, h');
    RestingQueue(h, h');
    forall s | s in c.running ensures SlotSafe(c.(shared := Tick(h')), s) { SlotDelivered(node, c, op, a, s); }
  }

  lemma {:induction false} RestingInv(node: Node, h: Host)
    requires h.pc == Idle(NoReport) && Runs.Inv(node.site, h.agent) && LinksBacked(node, h)
    ensures Inv(node, h)
  {
  }

  lemma {:induction false} RestingQueue(h: Host, h': Host)
    requires QueueInv(h) && h.pc == Idle(NoReport) && h' == h.(agent := h'.agent)
    ensures QueueInv(Tick(h'))
  {
  }

  /** The write that makes a removal durable reaches the file. */
  predicate Takes(j: Journal, env: Env) { j.revision < U64_MAX && env.persist != FailedBeforeRename }

  /** What a removal does to file and memory. */
  lemma {:induction false} RemovalEffect(node: Node, h: Host, op: Operation, env: Env, key: Key)
    requires ValidProvider(node.site.provider) && h.agent.open && Removes(h.agent.journal, op, key) && h.agent.journal.revision <= U64_MAX
    ensures var agent := Transact(node, h, op, Delivery(env)).0.agent;
      if Takes(h.agent.journal, env) then key !in agent.disk.table
      else agent.open && agent.journal.table == h.agent.journal.table && agent.disk == h.agent.disk
  {
    hide ValidKey, LegacyBlocked;
    var table := h.agent.journal.table;
    assert (table - {key})[key := table[key]] == table;
  }

  lemma {:induction false} RevisionFits(node: Node, h: Host)
    requires Runs.Inv(node.site, h.agent)
    ensures h.agent.journal.revision <= U64_MAX
  {
  }

  /** Tables as before keep everything. */
  lemma {:induction false} SameTablesSafe(node: Node, c: Cluster, op: Operation, a: Answers)
    requires ValidProvider(node.site.provider) && ClusterInv(node, c) && c.shared.agent.open
    requires var agent := Transact(node, c.shared, op, a).0.agent;
      agent.open && agent.journal.table == c.shared.agent.journal.table && agent.disk == c.shared.agent.disk
    ensures ClusterInv(node, c.(shared := Tick(Transact(node, c.shared, op, a).0)))
  {
    hide Transact, PcSafe, PcQueued, Placed, Compatible, Runs.Inv, LinksBacked, SlotSafe;
    var h := c.shared;
    var h' := Transact(node, h, op, a).0;
    TransactFrame(node, h, op, a);
    TransactAgent(node, h, op, a);
    SameRecords(node, h, h'.agent);
    RestingInv(node, h');
    TickSafe(node, h');
    RestingQueue(h, h');
    forall s | s in c.running ensures SlotSafe(c.(shared := Tick(h')), s) {
      SlotInv(node, c, s);
      SameRecords(node, At(c, s), h'.agent);
      assert SlotSafe(c, s);
      SlotKept(c, h', s);
    }
  }

  lemma {:induction false} SlotKept(c: Cluster, h: Host, slot: Slot)
    requires slot in c.running && SlotSafe(c, slot) && h == c.shared.(agent := h.agent) && PcSafe(At(c, slot).(agent := h.agent))
    ensures SlotSafe(c.(shared := Tick(h)), slot)
  {
    TickPlace(h, c.running[slot], h.clock + 1);
  }

  lemma {:induction false} TransactAgent(node: Node, h: Host, op: Operation, a: Answers)
    requires ValidProvider(node.site.provider) && Runs.Inv(node.site, h.agent)
    ensures Runs.Inv(node.site, Transact(node, h, op, a).0.agent)
  {
    hide Runs.Inv, Runs.Next, Apply;
    Runs.NextKeepsInv(node.site, h.agent, Runs.Transact(CURRENT_SCHEMA, op, a.env));
  }

  /** A record in use whose file entry is gone breaks the invariant. */
  lemma {:induction false} InUseNeedsFile(node: Node, c: Cluster, n: Cluster, key: Key)
    requires InUse(c, key) && n.running == c.running && n.shared.links == c.shared.links && key !in n.shared.agent.disk.table
    ensures !ClusterInv(node, n)
    ensures !NoLink(c.shared, key) ==> !LinksOwned(n.shared)
  {
    hide Runs.Inv, QueueInv, PcQueued, Placed, Compatible;
    if s :| s in c.running && Links(c.running[s]) && HandKey(c.running[s]) == Some(key) {
      if ClusterInv(node, n) {
        assert SlotSafe(n, s);
        LinksHold(At(n, s));
      }
    }
    if !NoLink(c.shared, key) {
      var l :| l in c.shared.links && l.spec.key == key;
      assert l in n.shared.links;
      assert !Backed(node, n.shared, l);
    }
  }

  /** Exactly which late requests break what interleaved commands keep: those that remove a
      record in use and whose write reaches the file. If its pair is alive, the pair is at once
      without an owner. */
  lemma {:induction false} LateRequestIsSafe(node: Node, c: Cluster, op: Operation, env: Env)
    requires ValidProvider(node.site.provider) && ClusterInv(node, c)
    ensures var n := c.(shared := Tick(Transact(node, c.shared, op, Delivery(env)).0));
      && (ClusterInv(node, n) <==> !(Exposed(c, op) && Takes(c.shared.agent.journal, env)))
      && (c.shared.agent.open && Takes(c.shared.agent.journal, env) ==>
            forall key :: Removes(c.shared.agent.journal, op, key) && !NoLink(c.shared, key) ==> !LinksOwned(n.shared))
  {
    hide Transact, ClusterInv, Removes, InUse, NoLink, LinksOwned, Takes;
    TransactFrame(node, c.shared, op, Delivery(env));
    InvRevision(node, c);
    var n := c.(shared := Tick(Transact(node, c.shared, op, Delivery(env)).0));
    if !Exposed(c, op) {
      DeliverySafe(node, c, op, Delivery(env));
    } else {
      var key :| Removes(c.shared.agent.journal, op, key) && InUse(c, key);
      RemovalEffect(node, c.shared, op, env, key);
      if Takes(c.shared.agent.journal, env) {
        InUseNeedsFile(node, c, n, key);
      } else {
        SameTablesSafe(node, c, op, Delivery(env));
      }
    }
    forall key | c.shared.agent.open && Takes(c.shared.agent.journal, env) && Removes(c.shared.agent.journal, op, key) && !NoLink(c.shared, key)
      ensures !LinksOwned(n.shared)
    {
      RemovalEffect(node, c.shared, op, env, key);
      LinkedIsInUse(c, key);
      InUseNeedsFile(node, c, n, key);
    }
  }

  lemma {:induction false} LinkedIsInUse(c: Cluster, key: Key)
    requires !NoLink(c.shared, key)
    ensures InUse(c, key)
  {
  }

  /** And if no pair is alive yet, the ADD that is about to create it leaves it without an owner. */
  lemma {:induction false} LinkerLosesOwner(node: Node, c: Cluster, op: Operation, env: Env, slot: Slot, a: Answers)
    requires ValidProvider(node.site.provider) && ClusterInv(node, c) && c.shared.agent.open && slot in c.running && c.running[slot].AddLink?
    requires var record := c.running[slot].record;
      Removes(c.shared.agent.journal, op, record.spec.key) && Takes(c.shared.agent.journal, env) && node.buildable(PlanOf(record)) && !a.fails
    ensures var n := c.(shared := Tick(Transact(node, c.shared, op, Delivery(env)).0));
      !LinksOwned(NextCluster(node, n, Advance(slot, a)).shared)
  {
    hide Transact, ClusterInv, Removes, Takes;
    var n := c.(shared := Tick(Transact(node, c.shared, op, Delivery(env)).0));
    TransactFrame(node, c.shared, op, Delivery(env));
    InvRevision(node, c);
    RemovalEffect(node, c.shared, op, env, c.running[slot].record.spec.key);
    assert !Blocked(n, slot);
    assert PlanOf(c.running[slot].record) in NextCluster(node, n, Advance(slot, a)).shared.links;
  }

  lemma {:induction false} InvRevision(node: Node, c: Cluster)
    requires ClusterInv(node, c)
    ensures c.shared.agent.journal.revision <= U64_MAX
  {
    hide Runs.Inv, LinksBacked, QueueInv, Compatible, SlotSafe;
    RevisionFits(node, c.shared);
  }

  /** Every late request of the run removes no record in use. */
  ghost predicate Sheltered(node: Node, b: Backlog, events: seq<BacklogEvent>)
    requires ValidProvider(node.site.provider)
    decreases |events|
  {
    events != [] ==>
      && (events[0].Deliver? && events[0].op in b.late ==> !Exposed(b.cluster, events[0].op))
      && Sheltered(node, NextBacklog(node, b, events[0]), events[1..])
  }

  lemma {:induction false} RunBacklogSafe(node: Node, b: Backlog, events: seq<BacklogEvent>)
    requires ValidProvider(node.site.provider) && ClusterInv(node, b.cluster) && Sheltered(node, b, events)
    ensures ClusterInv(node, RunBacklog(node, b, events).cluster)
    decreases |events|
  {
    hide ClusterInv, NextCluster, Exposed, Transact;
    if events != [] {
      match events[0] {
        case Now(event) => NextClusterSafe(node, b.cluster, event);
        case Deliver(op, env) => if op in b.late { DeliverySafe(node, b.cluster, op, Delivery(env)); }
      }
      RunBacklogSafe(node, NextBacklog(node, b, events[0]), events[1..]);
    }
  }

  /** With late requests too, as long as none removes a record in use, every live link has its
      owner and every reported ADD and DEL means what it says. */
  lemma {:induction false} LateRunsAreSafe(node: Node, events: seq<BacklogEvent>, slot: Slot, a: Answers)
    requires ValidProvider(node.site.provider) && Sheltered(node, FirstBacklog, events)
    ensures var c := RunBacklog(node, FirstBacklog, events).cluster;
      && LinksOwned(c.shared)
      && (slot in c.running && !c.running[slot].Idle? ==> Reports(At(c, slot), PluginStep(node, At(c, slot), a)))
  {
    hide RunBacklog, Inv, QueueInv, LinksOwned, Sheltered, PluginStep, Reports, Compatible, SlotSafe;
    assert ClusterInv(node, FirstCluster) by { FirstSafe(node); }
    RunBacklogSafe(node, FirstBacklog, events);
    var c := RunBacklog(node, FirstBacklog, events).cluster;
    InvOwnsLinks(node, c.shared);
    if slot in c.running && !c.running[slot].Idle? {
      SlotInv(node, c, slot);
      StepReports(node, At(c, slot), a);
    }
  }

  lemma {:induction false} FirstSafe(node: Node)
    requires ValidProvider(node.site.provider)
    ensures ClusterInv(node, FirstCluster)
  {
    ReachableCluster(node, []);
    assert RunCluster(node, FirstCluster, []) == FirstCluster;
  }
}
