/** Interleaved commands keep what serialized ones keep: the queue lock, the runtime's rules
    and the queue itself keep any two of them off the same attachment. */
module ConcurrentSafety {
  import opened Attachments
  import opened Lifecycle
  import opened LifecycleSafety
  import opened DeferredDeletes
  import opened ConcurrentCommands
  import opened ConcurrentSteps

  /** One running command: safe, and where its slot may stand. */
  ghost predicate SlotSafe(c: Cluster, slot: Slot)
    requires slot in c.running
  {
    PcSafe(At(c, slot)) && PcQueued(At(c, slot)) && Placed(c.shared.queue, slot, c.running[slot])
  }

  /** At most one holder of a network's queue lock, and no ADD or DEL beside a collection. */
  predicate Compatible(running: map<Slot, Pc>) {
    && (forall s, t :: s in running && t in running && s != t && Locked(running[s]).Some? ==> Locked(running[s]) != Locked(running[t]))
    && (Collector in running ==> forall s :: s in running ==> !Mutating(running[s]))
  }

  ghost predicate ClusterInv(node: Node, c: Cluster) {
    && c.shared.pc == Idle(NoReport)
    && Inv(node, c.shared) && QueueInv(c.shared)
    && Compatible(c.running)
    && forall s :: s in c.running ==> SlotSafe(c, s)
  }

  /** Each running command sees a host that satisfies the serialized invariants. */
  lemma {:induction false} SlotInv(node: Node, c: Cluster, slot: Slot)
    requires ClusterInv(node, c) && slot in c.running
    ensures Inv(node, At(c, slot)) && QueueInv(At(c, slot)) && Placed(c.shared.queue, slot, c.running[slot])
  {
    hide Runs.Inv, PcSafe, PcQueued, Placed, Compatible;
    assert SlotSafe(c, slot);
    SameLinksBacked(node, c.shared, At(c, slot));
  }

  /** The other direction, from the host of one command and the places of the others. */
  lemma {:induction false} SharedInv(node: Node, h: Host)
    requires Inv(node, h) && QueueInv(h)
    ensures Inv(node, h.(pc := Idle(NoReport))) && QueueInv(h.(pc := Idle(NoReport)))
  {
    hide Inv;
    RestSafe(node, h, Idle(NoReport));
  }

  lemma {:induction false} TickQueue(h: Host)
    requires QueueInv(h)
    ensures QueueInv(Tick(h))
  {
  }

  lemma {:induction false} TickSlot(c: Cluster, running: map<Slot, Pc>, slot: Slot)
    requires slot in c.running && slot in running && running[slot] == c.running[slot] && SlotSafe(c, slot)
    ensures SlotSafe(Cluster(Tick(c.shared), running), slot)
  {
  }

  /** Time passes and some commands are gone. */
  lemma {:induction false} FewerRunning(node: Node, c: Cluster, running: map<Slot, Pc>)
    requires ClusterInv(node, c) && forall s :: s in running ==> s in c.running && running[s] == c.running[s]
    ensures ClusterInv(node, Cluster(Tick(c.shared), running))
  {
    hide Inv, QueueInv, SlotSafe;
    TickSafe(node, c.shared);
    TickQueue(c.shared);
    forall s | s in running ensures SlotSafe(Cluster(Tick(c.shared), running), s) { TickSlot(c, running, s); }
  }

  lemma {:induction false} BeginSafe(node: Node, c: Cluster, slot: Slot, cmd: Command)
    requires ClusterInv(node, c) && MayBegin(c, slot, cmd)
    ensures ClusterInv(node, Cluster(Tick(c.shared), c.running[slot := DrainList(cmd)]))
  {
    hide Inv, QueueInv, SlotSafe, Accepted;
    var n := Cluster(Tick(c.shared), c.running[slot := DrainList(cmd)]);
    TickSafe(node, c.shared);
    TickQueue(c.shared);
    assert SlotSafe(n, slot) by { StartedSlot(c.shared, slot, cmd); }
    forall s | s in n.running && s != slot ensures SlotSafe(n, s) { TickSlot(c, n.running, s); }
  }

  lemma {:induction false} StartedSlot(shared: Host, slot: Slot, cmd: Command)
    requires Suits(slot, cmd)
    ensures forall running :: slot in running && running[slot] == DrainList(cmd) ==> SlotSafe(Cluster(Tick(shared), running), slot)
  {
  }

  /** The acting command's host after its step, seen by every other one. */
  lemma {:induction false} OtherSlot(node: Node, c: Cluster, slot: Slot, a: Answers, other: Slot)
    requires ValidProvider(node.site.provider) && ClusterInv(node, c)
    requires slot in c.running && !Blocked(c, slot) && other in c.running && other != slot
    ensures var h := Next(node, At(c, slot), Step(a)).(pc := c.running[other]);
      PcSafe(h) && PcQueued(h) && Placed(h.queue, other, c.running[other])
  {
    hide Inv, QueueInv, PcSafe, PcQueued, Placed, PluginStep, Elsewhere, FewerLinks, Apart, QueueChange, Mutating, Locked, Wanted;
    var h, pc := At(c, slot), c.running[other];
    var h' := PluginStep(node, h, a);
    SlotInv(node, c, slot);
    SlotInv(node, c, other);
    assert SlotSafe(c, slot) && SlotSafe(c, other);
    StepElsewhere(node, h, a);
    StepOnward(node, h, a, slot);
    PlacedAreApart(h.queue, slot, h.pc, other, pc);
    OthersSafe(h, h', pc);
    OthersPlaced(h, h', slot, other, pc);
    OthersQueued(h, h', pc);
    TickPlace(h', pc, h.clock + 1);
  }

  lemma {:induction false} TickPlace(h: Host, pc: Pc, clock: nat)
    ensures PcSafe(h.(pc := pc)) ==> PcSafe(h.(pc := pc, clock := clock))
    ensures PcQueued(h.(pc := pc)) ==> PcQueued(h.(pc := pc, clock := clock))
  {
  }

  lemma {:induction false} AdvanceSafe(node: Node, c: Cluster, slot: Slot, a: Answers)
    requires ValidProvider(node.site.provider) && ClusterInv(node, c) && slot in c.running && !Blocked(c, slot)
    ensures ClusterInv(node, NextCluster(node, c, Advance(slot, a)))
  {
    hide Inv, QueueInv, PcSafe, PcQueued, Placed, PluginStep, QueueChange, Mutating, Locked, Wanted;
    var h := At(c, slot);
    var h' := Next(node, h, Step(a));
    var n := NextCluster(node, c, Advance(slot, a));
    SlotInv(node, c, slot);
    NextSafe(node, h, Step(a));
    NextQueued(node, h, Step(a));
    SharedInv(node, h');
    assert SlotSafe(c, slot);
    StepOnward(node, h, a, slot);
    if slot in n.running { ActingSlot(node, n, slot, h'); }
    forall s | s in n.running && s != slot ensures SlotSafe(n, s) {
      OtherSlot(node, c, slot, a, s);
    }
    StaysCompatible(c, slot, h'.pc);
  }

  lemma {:induction false} ActingSlot(node: Node, n: Cluster, slot: Slot, h: Host)
    requires slot in n.running && At(n, slot) == h && Inv(node, h) && QueueInv(h) && Placed(h.queue, slot, h.pc)
    ensures SlotSafe(n, slot)
  {
    hide PcSafe, PcQueued, Placed, Runs.Inv, LinksBacked;
  }

  lemma {:induction false} StaysCompatible(c: Cluster, slot: Slot, pc: Pc)
    requires Compatible(c.running) && slot in c.running && !Blocked(c, slot)
    requires Locked(pc).Some? ==> Locked(pc) == Locked(c.running[slot]) || (c.running[slot].DrainList? && Locked(pc) == Wanted(c.running[slot]))
    requires Mutating(pc) ==> Mutating(c.running[slot])
    ensures Compatible(c.running[slot := pc]) && Compatible(c.running - {slot})
  {
    hide Mutating, Locked, Wanted;
    var n := c.running[slot := pc];
    forall s, t | s in n && t in n && s != t && Locked(n[s]).Some? ensures Locked(n[s]) != Locked(n[t]) {
      assert s == slot || t == slot || Locked(c.running[s]) != Locked(c.running[t]);
      assert t in c.running && s in c.running;
    }
  }

  /** Crashes, reopens and hook installations of the agent. */
  lemma {:induction false} AgentSafe(node: Node, c: Cluster, event: Runs.Event)
    requires ValidProvider(node.site.provider) && ClusterInv(node, c)
    ensures ClusterInv(node, NextCluster(node, c, Agent(event)))
  {
    hide Inv, QueueInv, PcSafe, PcQueued, Placed, Compatible, Runs.Next;
    var n := NextCluster(node, c, Agent(event));
    NextSafe(node, c.shared, AgentEvent(event));
    NextQueued(node, c.shared, AgentEvent(event));
    forall s | s in n.running ensures SlotSafe(n, s) {
      SlotInv(node, c, s);
      NextSafe(node, At(c, s), AgentEvent(event));
      NextQueued(node, At(c, s), AgentEvent(event));
      ActingSlot(node, n, s, Next(node, At(c, s), AgentEvent(event)));
    }
  }

  lemma {:induction false} RestartSafe(node: Node, c: Cluster)
    requires ValidProvider(node.site.provider) && ClusterInv(node, c)
    ensures ClusterInv(node, NextCluster(node, c, Restart))
  {
    hide Inv, QueueInv;
    NextSafe(node, c.shared, Reboot);
    NextQueued(node, c.shared, Reboot);
  }

  lemma {:induction false} NextClusterSafe(node: Node, c: Cluster, e: ClusterEvent)
    requires ValidProvider(node.site.provider) && ClusterInv(node, c)
    ensures ClusterInv(node, NextCluster(node, c, e))
  {
    hide ClusterInv, Next, MayBegin, Blocked;
    match e
    case Begin(slot, cmd) => FewerRunning(node, c, c.running); if MayBegin(c, slot, cmd) { BeginSafe(node, c, slot, cmd); }
    case Advance(slot, a) => FewerRunning(node, c, c.running); if slot in c.running && !Blocked(c, slot) { AdvanceSafe(node, c, slot, a); }
    case Kill(slot) => FewerRunning(node, c, c.running - {slot});
    case Agent(event) => AgentSafe(node, c, event);
    case Restart => RestartSafe(node, c);
  }

  lemma {:induction false} RunClusterSafe(node: Node, c: Cluster, events: seq<ClusterEvent>)
    requires ValidProvider(node.site.provider) && ClusterInv(node, c)
    ensures ClusterInv(node, RunCluster(node, c, events))
    decreases |events|
  {
    hide ClusterInv, NextCluster;
    if events != [] {
      NextClusterSafe(node, c, events[0]);
      RunClusterSafe(node, NextCluster(node, c, events[0]), events[1..]);
    }
  }

  lemma {:induction false} ReachableCluster(node: Node, events: seq<ClusterEvent>)
    requires ValidProvider(node.site.provider)
    ensures ClusterInv(node, RunCluster(node, FirstCluster, events))
  {
    assert ClusterInv(node, FirstCluster);
    RunClusterSafe(node, FirstCluster, events);
  }

  /** However commands of different containers interleave, no live link is without its durable
      owner and no address is on two links. */
  lemma {:induction false} InterleavedLinksAreOwned(node: Node, events: seq<ClusterEvent>)
    requires ValidProvider(node.site.provider)
    ensures LinksOwned(RunCluster(node, FirstCluster, events).shared)
  {
    hide Inv, LinksOwned, RunCluster;
    ReachableCluster(node, events);
    InvOwnsLinks(node, RunCluster(node, FirstCluster, events).shared);
  }

  /** Every queued delete was queued after the last ADD of its network began, also when other
      commands were queueing and draining meanwhile. */
  lemma {:induction false} InterleavedDeletesStayBehind(node: Node, events: seq<ClusterEvent>, key: Key)
    requires ValidProvider(node.site.provider)
    requires var h := RunCluster(node, FirstCluster, events).shared; key in h.queue && key.network in h.lastAdd
    ensures var h := RunCluster(node, FirstCluster, events).shared; h.lastAdd[key.network] < h.queue[key]
  {
    hide Inv, RunCluster;
    ReachableCluster(node, events);
  }

  /** Once an ADD is past its drain, no other running command works on its attachment, and its
      key is not queued. */
  lemma {:induction false} AddWorksAlone(node: Node, events: seq<ClusterEvent>, slot: Slot, other: Slot)
    requires ValidProvider(node.site.provider)
    requires var c := RunCluster(node, FirstCluster, events);
      slot in c.running && other in c.running && slot != other && Adds(c.running[slot])
    ensures var c := RunCluster(node, FirstCluster, events);
      && HandKey(c.running[other]) != HandKey(c.running[slot])
      && HandKey(c.running[slot]).value !in c.shared.queue
  {
    hide Inv, QueueInv, RunCluster, PcSafe, PcQueued;
    ReachableCluster(node, events);
    var c := RunCluster(node, FirstCluster, events);
    assert SlotSafe(c, slot) && SlotSafe(c, other);
    AddIsAlone(c.shared.queue, slot, c.running[slot], other, c.running[other]);
  }

  /** A command that reports success among others: its DEL is queued or done, its ADD alive. */
  lemma {:induction false} InterleavedReportsHold(node: Node, events: seq<ClusterEvent>, slot: Slot, a: Answers)
    requires ValidProvider(node.site.provider)
    requires var c := RunCluster(node, FirstCluster, events); slot in c.running && !c.running[slot].Idle?
    ensures var h := PluginStep(node, At(RunCluster(node, FirstCluster, events), slot), a);
      && (h.pc.Idle? && h.pc.report.Deleted? ==>
            h.pc.report.key in h.queue || (h.agent.open && h.pc.report.key !in h.agent.journal.table && NoLink(h, h.pc.report.key)))
      && (h.pc.Idle? && h.pc.report.Added? ==> h.pc.report.record.phase == Ready && PlanOf(h.pc.report.record) in h.links)
  {
    hide ClusterInv, Inv, QueueInv, RunCluster, PluginStep, NoLink;
    ReachableCluster(node, events);
    var c := RunCluster(node, FirstCluster, events);
    SlotInv(node, c, slot);
    StepReports(node, At(c, slot), a);
  }
}
