/** What a reported or drained DEL means for the journal file while other commands run. */
module ConcurrentDurability {
  import opened Results
  import opened Attachments
  import opened JournalModel
  import opened Lifecycle
  import opened LifecycleSafety
  import opened DeferredDeletes
  import opened DeleteDurability
  import opened ConcurrentCommands
  import opened ConcurrentSteps
  import opened ConcurrentSafety

  /** Only preparing a key can leave it in the file without leaving it in memory. */
  lemma {:induction false} TransactSettles(node: Node, h: Host, op: Operation, a: Answers, key: Key)
    requires ValidProvider(node.site.provider) && Runs.Inv(node.site, h.agent) && Settled(h.agent, key)
    requires op.Prepare? ==> op.spec.key != key
    ensures Settled(Transact(node, h, op, a).0.agent, key)
  {
    hide Apply, ValidTable, LegalMove, Runs.PlannedMove, MutationKey;
    if h.agent.open {
      var env := a.env.(newId := h.agent.nextId);
      Runs.ApplyCases(node.site, h.agent.journal, h.agent.disk, CURRENT_SCHEMA, op, env);
      OldKeyMoves(node, h, op, env, key);
    }
  }

  lemma {:induction false} OldKeyMoves(node: Node, h: Host, op: Operation, env: Env, key: Key)
    requires ValidProvider(node.site.provider) && (op.Prepare? ==> op.spec.key != key)
    ensures var move := Runs.PlannedMove(node.site, h.agent.journal, CURRENT_SCHEMA, op, env.nonce);
      move.Move? && move.key == key ==> key in h.agent.journal.table
  {
    hide LegacyBlocked;
  }

  lemma {:induction false} StepSettles(node: Node, h: Host, a: Answers, key: Key)
    requires ValidProvider(node.site.provider) && Runs.Inv(node.site, h.agent) && Settled(h.agent, key)
    requires h.pc.AddPrepare? ==> h.pc.spec.key != key
    ensures Settled(PluginStep(node, h, a).agent, key)
  {
    hide Transact, Settled, Runs.Inv, Listing, SortedKeys, QueuedIn;
    match h.pc
    case DeleteBegin(k, _) => TransactSettles(node, h, BeginDelete(k), a, key);
    case DeleteComplete(k, _) => TransactSettles(node, h, CompleteDelete(k), a, key);
    case AddInspect(spec) => TransactSettles(node, h, Inspect(spec.key), a, key);
    case AddRecoverComplete(spec) => TransactSettles(node, h, CompleteAbort(spec.key), a, key);
    case AddPrepare(spec) => TransactSettles(node, h, Prepare(spec), a, key);
    case AddCommit(record) => TransactSettles(node, h, Commit(record.spec.key), a, key);
    case AbortBegin(record, _) => TransactSettles(node, h, BeginAbort(record.spec.key), a, key);
    case AbortComplete(k) => TransactSettles(node, h, CompleteAbort(k), a, key);
    case CollectList(network, _, after, _) => TransactSettles(node, h, List(network, after, MAX_LIST_RECORDS), a, key);
    case CollectAborted(k, _) => TransactSettles(node, h, CompleteAbort(k), a, key);
    case _ =>
  }

  /** Places of a delete that has begun. */
  predicate Removing(pc: Pc) { pc.DeleteCleanup? || pc.DeleteComplete? }

  lemma {:induction false} PcSettledKey(h: Host)
    ensures Removing(h.pc) ==> HandKey(h.pc).Some? && (PcSettled(h) <==> Settled(h.agent, HandKey(h.pc).value))
    ensures !Removing(h.pc) ==> PcSettled(h)
  {
  }

  ghost predicate ClusterSettled(c: Cluster) { forall s :: s in c.running ==> PcSettled(At(c, s)) }

  lemma {:induction false} OtherSettles(node: Node, c: Cluster, slot: Slot, a: Answers, other: Slot)
    requires ValidProvider(node.site.provider) && ClusterInv(node, c) && ClusterSettled(c)
    requires slot in c.running && other in c.running && other != slot
    ensures PcSettled(PluginStep(node, At(c, slot), a).(pc := c.running[other]))
  {
    hide Inv, QueueInv, PcSafe, PcQueued, Placed, PluginStep, Settled, PcSettled, Mutating, Locked;
    var h, pc := At(c, slot), c.running[other];
    var h' := PluginStep(node, h, a).(pc := pc);
    PcSettledKey(At(c, other));
    PcSettledKey(h');
    if Removing(pc) {
      SlotInv(node, c, slot);
      assert SlotSafe(c, slot) && SlotSafe(c, other);
      InvAgent(node, h);
      if h.pc.AddPrepare? { PreparesElsewhere(c.shared.queue, slot, h.pc, other, pc); }
      StepSettles(node, h, a, HandKey(pc).value);
    }
  }

  lemma {:induction false} PreparesElsewhere(queue: map<Key, nat>, slot: Slot, pc: Pc, other: Slot, pc': Pc)
    requires slot != other && Placed(queue, slot, pc) && Placed(queue, other, pc') && Exclusive(slot, pc, other, pc') && pc.AddPrepare?
    ensures HandKey(pc') != Some(pc.spec.key)
  {
    hide Placed, Exclusive;
    AddIsAlone(queue, slot, pc, other, pc');
  }

  lemma {:induction false} AdvanceSettles(node: Node, c: Cluster, slot: Slot, a: Answers)
    requires ValidProvider(node.site.provider) && ClusterInv(node, c) && ClusterSettled(c)
    ensures ClusterSettled(NextCluster(node, c, Advance(slot, a)))
  {
    hide ClusterInv, PluginStep, PcSettled, Blocked;
    var n := NextCluster(node, c, Advance(slot, a));
    forall s | s in n.running ensures PcSettled(At(n, s)) {
      assert PcSettled(At(c, s));
      TickSettles(At(c, s), c.shared.clock + 1);
      if slot in c.running && !Blocked(c, slot) {
        SlotInv(node, c, slot);
        TickSettles(PluginStep(node, At(c, slot), a).(pc := n.running[s]), c.shared.clock + 1);
        if s == slot {
          if c.running[slot].Idle? { IdleStep(node, At(c, slot), a); } else { StepFileReports(node, At(c, slot), a); }
        } else {
          OtherSettles(node, c, slot, a, s);
        }
      }
    }
  }

  lemma {:induction false} TickSettles(h: Host, clock: nat)
    ensures PcSettled(h.(clock := clock)) <==> PcSettled(h)
  {
  }

  lemma {:induction false} NextClusterSettles(node: Node, c: Cluster, e: ClusterEvent)
    requires ValidProvider(node.site.provider) && ClusterInv(node, c) && ClusterSettled(c)
    ensures ClusterSettled(NextCluster(node, c, e))
  {
    hide ClusterInv, Next, MayBegin, Blocked, Settled;
    if e.Advance? {
      AdvanceSettles(node, c, e.slot, e.answers);
    } else if e.Agent? {
      forall s | s in c.running ensures PcSettled(At(NextCluster(node, c, e), s)) {
        AgentSettles(node, c, e.event, s);
      }
    } else {
      forall s | s in c.running ensures PcSettled(At(c, s).(clock := c.shared.clock + 1)) { }
    }
  }

  lemma {:induction false} AgentSettles(node: Node, c: Cluster, event: Runs.Event, slot: Slot)
    requires ValidProvider(node.site.provider) && ClusterInv(node, c) && slot in c.running && PcSettled(At(c, slot))
    ensures PcSettled(Next(node, c.shared, AgentEvent(event)).(pc := c.running[slot]))
  {
    hide ClusterInv, Runs.Next, PcSettled;
    SlotInv(node, c, slot);
    NextSettles(node, At(c, slot), AgentEvent(event));
  }

  lemma {:induction false} RunClusterSettles(node: Node, c: Cluster, events: seq<ClusterEvent>)
    requires ValidProvider(node.site.provider) && ClusterInv(node, c) && ClusterSettled(c)
    ensures ClusterSettled(RunCluster(node, c, events))
    decreases |events|
  {
    hide ClusterInv, ClusterSettled, NextCluster;
    if events != [] {
      NextClusterSettles(node, c, events[0]);
      NextClusterSafe(node, c, events[0]);
      RunClusterSettles(node, NextCluster(node, c, events[0]), events[1..]);
    }
  }

  lemma {:induction false} SlotSettled(node: Node, events: seq<ClusterEvent>, slot: Slot)
    requires ValidProvider(node.site.provider) && slot in RunCluster(node, FirstCluster, events).running
    ensures var h := At(RunCluster(node, FirstCluster, events), slot); PcSettled(h) && QueueInv(h) && Inv(node, h)
  {
    hide RunCluster, PcSettled, Inv, QueueInv, SlotSafe;
    ReachableCluster(node, events);
    assert ClusterInv(node, FirstCluster) by { ReachableCluster(node, []); FirstIsReached(node); }
    RunClusterSettles(node, FirstCluster, events);
    SlotInv(node, RunCluster(node, FirstCluster, events), slot);
  }

  lemma {:induction false} FirstIsReached(node: Node)
    requires ValidProvider(node.site.provider)
    ensures RunCluster(node, FirstCluster, []) == FirstCluster
  {
  }

  /** Among other commands too, a DEL that reports success without being queued has left the
      file, exactly unless it found the key unknown to memory and still in the file; what is
      then left is one Preparing record whose ADD failed after the rename. */
  lemma {:induction false} InterleavedDeleteIsDurable(node: Node, events: seq<ClusterEvent>, slot: Slot, a: Answers)
    requires ValidProvider(node.site.provider)
    requires var c := RunCluster(node, FirstCluster, events);
      && slot in c.running && !c.running[slot].Idle?
      && var h' := PluginStep(node, At(c, slot), a); h'.pc.Idle? && h'.pc.report.Deleted? && h'.pc.report.key !in h'.queue
    ensures var h := At(RunCluster(node, FirstCluster, events), slot); var h' := PluginStep(node, h, a);
      FileKeeps(h, h', h'.pc.report.key)
  {
    hide RunCluster, PluginStep, QueueInv, Inv, PcSettled, NoLink, LinksBacked, Gone;
    SlotSettled(node, events, slot);
    EndedDelete(node, At(RunCluster(node, FirstCluster, events), slot), a);
  }

  /** The same for an entry that is about to leave the queue. */
  lemma {:induction false} InterleavedDrainIsDurable(node: Node, events: seq<ClusterEvent>, slot: Slot, a: Answers)
    requires ValidProvider(node.site.provider)
    requires var c := RunCluster(node, FirstCluster, events);
      && slot in c.running && !c.running[slot].Idle?
      && PluginStep(node, At(c, slot), a).pc.DrainRemove?
    ensures var h := At(RunCluster(node, FirstCluster, events), slot); var h' := PluginStep(node, h, a);
      FileKeeps(h, h', h'.pc.key)
  {
    hide RunCluster, PluginStep, QueueInv, Inv, PcSettled, NoLink, LinksBacked, Gone;
    SlotSettled(node, events, slot);
    EndedDelete(node, At(RunCluster(node, FirstCluster, events), slot), a);
  }
}
