/** What a command reports is about what it was asked: in every run, serialized or interleaved,
    the record an ADD returns is of its own request. */
module CommandReports {
  import opened Attachments
  import opened JournalModel
  import opened Lifecycle
  import opened LifecycleSafety
  import opened DeferredDeletes
  import opened ConcurrentCommands
  import opened ConcurrentSafety

  /** The record is of this request: same key, namespace and MTU, and the same workload where
      the record is bound to one. */
  predicate Fits(recorded: Spec, requested: Spec) {
    && recorded.key.network == requested.key.network && recorded.key.containerId == requested.key.containerId
    && recorded.key.ifname == requested.key.ifname
    && recorded.netns == requested.netns && recorded.mtu == requested.mtu
    && (recorded.workloadUid.Some? ==> requested.workloadUid == recorded.workloadUid)
  }

  predicate CallerServes(caller: Caller, cmd: Command) {
    match caller
    case OfCommand(key) => cmd == Del(key)
    case OfDrain(_, _, c) => cmd == c
    case OfCollector(page) => cmd == GarbageCollect(page.network, page.valid)
  }

  predicate ReportServes(report: Report, cmd: Command) {
    match report
    case Added(record) => cmd.Add? && Fits(record.spec, cmd.spec)
    case Deleted(key) => cmd == Del(key)
    case Collected => cmd.GarbageCollect?
    case _ => true
  }

  /** The place is one of this command. */
  predicate Serves(pc: Pc, cmd: Command) {
    match pc
    case Idle(report) => ReportServes(report, cmd)
    case DrainList(c) => cmd == c
    case DeleteBegin(_, caller) => CallerServes(caller, cmd)
    case DeleteCleanup(_, caller) => CallerServes(caller, cmd)
    case DeleteComplete(_, caller) => CallerServes(caller, cmd)
    case DrainRemove(_, _, c) => cmd == c
    case Enqueue(key, _) => cmd == Del(key)
    case AddInspect(spec) => cmd == Add(spec)
    case AddRecover(spec, _) => cmd == Add(spec)
    case AddRecoverComplete(spec) => cmd == Add(spec)
    case AddPrepare(spec) => cmd == Add(spec)
    case AddVerify(record) => cmd.Add? && Fits(record.spec, cmd.spec)
    case AddLink(record) => cmd.Add? && Fits(record.spec, cmd.spec)
    case AddRoutes(record) => cmd.Add? && Fits(record.spec, cmd.spec)
    case AddCommit(record) => cmd.Add? && Fits(record.spec, cmd.spec)
    case AbortBegin(record, _) => cmd.Add? && Fits(record.spec, cmd.spec)
    case AbortUnlink(record) => cmd.Add? && Fits(record.spec, cmd.spec)
    case AbortComplete(key) => cmd.Add? && key == cmd.spec.key
    case CollectList(network, valid, _, _) => cmd == GarbageCollect(network, valid)
    case CollectRecord(page) => cmd == GarbageCollect(page.network, page.valid)
    case CollectAborting(_, page) => cmd == GarbageCollect(page.network, page.valid)
    case CollectAborted(_, page) => cmd == GarbageCollect(page.network, page.valid)
  }

  lemma {:induction false} ReplayFits(recorded: Spec, requested: Spec)
    ensures recorded.AcceptsReplay(requested) <==> Fits(recorded, requested)
  {
  }

  /** What Prepare returns is of the request. */
  lemma {:induction false} PreparedFits(node: Node, h: Host, spec: Spec, a: Answers)
    requires ValidProvider(node.site.provider)
    ensures var reply := Transact(node, h, Prepare(spec), a).1;
      reply.Answer? && reply.attachment.Some? ==> Fits(reply.attachment.value.spec, spec)
  {
    hide Allocate, ValidSpec, LegacyBlocked;
    if spec.key in h.agent.journal.table { ReplayFits(h.agent.journal.table[spec.key].spec, spec); }
  }

  lemma {:induction false} DrainServes(h: Host, a: Answers, cmd: Command)
    requires (h.pc.DrainList? || h.pc.DrainRemove? || h.pc.Enqueue?) && Serves(h.pc, cmd)
    ensures Serves(StepDrain(h, a).pc, cmd)
  {
    hide SortedKeys, QueuedIn;
  }

  lemma {:induction false} DeleteServes(node: Node, h: Host, a: Answers, cmd: Command)
    requires ValidProvider(node.site.provider) && (h.pc.DeleteBegin? || h.pc.DeleteCleanup? || h.pc.DeleteComplete?) && Serves(h.pc, cmd)
    ensures Serves(StepDelete(node, h, a).pc, cmd)
  {
    hide Transact, Unlink;
  }

  lemma {:induction false} AddServes(node: Node, h: Host, a: Answers, cmd: Command)
    requires ValidProvider(node.site.provider) && Serves(h.pc, cmd)
    requires h.pc.AddInspect? || h.pc.AddVerify? || h.pc.AddRecover? || h.pc.AddRecoverComplete? || h.pc.AddPrepare?
    ensures Serves(StepAdd(node, h, a).pc, cmd)
  {
    hide Transact, Unlink, Fits, Spec.AcceptsReplay;
    match h.pc
    case AddInspect(spec) =>
      var reply := Transact(node, h, Inspect(spec.key), a).1;
      if reply.Answer? && reply.attachment.Some? { ReplayFits(reply.attachment.value.spec, spec); }
    case AddPrepare(spec) => PreparedFits(node, h, spec, a);
    case _ =>
  }

  lemma {:induction false} FinishServes(node: Node, h: Host, a: Answers, cmd: Command)
    requires ValidProvider(node.site.provider) && Inv(node, h) && Serves(h.pc, cmd)
    requires h.pc.AddLink? || h.pc.AddRoutes? || h.pc.AddCommit? || h.pc.AbortBegin? || h.pc.AbortUnlink? || h.pc.AbortComplete?
    ensures Serves(StepFinish(node, h, a).pc, cmd)
  {
    hide Transact, Unlink, Runs.Inv, LinksBacked;
    if h.pc.AddCommit? {
      CommitReply(node, h, h.pc.record.spec.key, a);
      CommitOpen(node, h, h.pc.record.spec.key, a);
    }
  }

  lemma {:induction false} CollectServes(node: Node, h: Host, a: Answers, cmd: Command)
    requires ValidProvider(node.site.provider) && Serves(h.pc, cmd)
    requires h.pc.CollectList? || h.pc.CollectRecord? || h.pc.CollectAborting? || h.pc.CollectAborted?
    ensures Serves(StepCollect(node, h, a).pc, cmd)
  {
    hide Transact, Unlink, Listing;
  }

  /** No step of a command leads into another one. */
  lemma {:induction false} StepServes(node: Node, h: Host, a: Answers, cmd: Command)
    requires ValidProvider(node.site.provider) && Inv(node, h) && Serves(h.pc, cmd)
    ensures Serves(PluginStep(node, h, a).pc, cmd)
  {
    hide Inv, Serves, StepDrain, StepDelete, StepAdd, StepFinish, StepCollect;
    if h.pc.Idle? {
    } else if h.pc.DrainList? || h.pc.DrainRemove? || h.pc.Enqueue? {
      DrainServes(h, a, cmd);
    } else if h.pc.DeleteBegin? || h.pc.DeleteCleanup? || h.pc.DeleteComplete? {
      DeleteServes(node, h, a, cmd);
    } else if h.pc.AddInspect? || h.pc.AddVerify? || h.pc.AddRecover? || h.pc.AddRecoverComplete? || h.pc.AddPrepare? {
      AddServes(node, h, a, cmd);
    } else if h.pc.CollectList? || h.pc.CollectRecord? || h.pc.CollectAborting? || h.pc.CollectAborted? {
      CollectServes(node, h, a, cmd);
    } else {
      FinishServes(node, h, a, cmd);
    }
  }

  /** The command started last, after `started`. */
  ghost function LastStarted(node: Node, h: Host, events: seq<Event>, started: Command): Command
    requires ValidProvider(node.site.provider)
    decreases |events|
  {
    if events == [] then started
    else LastStarted(node, Next(node, h, events[0]), events[1..],
                     if events[0].Start? && h.pc.Idle? && Accepted(events[0].cmd) then events[0].cmd else started)
  }

  lemma {:induction false} RunServes(node: Node, h: Host, events: seq<Event>, started: Command)
    requires ValidProvider(node.site.provider) && Inv(node, h) && Serves(h.pc, started)
    ensures Serves(Run(node, h, events).pc, LastStarted(node, h, events, started))
    decreases |events|
  {
    hide Inv, PluginStep, Runs.Next, Accepted;
    if events != [] {
      var e := events[0];
      NextSafe(node, h, e);
      if e.Step? { StepServes(node, h, e.answers, started); }
      RunServes(node, Next(node, h, e), events[1..], if e.Start? && h.pc.Idle? && Accepted(e.cmd) then e.cmd else started);
    }
  }

  /** In every run, what is reported belongs to the command started last: an added record has
      the key, namespace and MTU that were asked for, and the workload where it is bound to one;
      a deleted key is the one to delete. */
  lemma {:induction false} ReportsAreOwn(node: Node, events: seq<Event>, first: Command)
    requires ValidProvider(node.site.provider)
    ensures var h := Run(node, FirstBoot, events); var cmd := LastStarted(node, FirstBoot, events, first);
      h.pc.Idle? ==>
        && (h.pc.report.Added? ==> cmd.Add? && Fits(h.pc.report.record.spec, cmd.spec))
        && (h.pc.report.Deleted? ==> cmd == Del(h.pc.report.key))
        && (h.pc.report.Collected? ==> cmd.GarbageCollect?)
  {
    hide Run;
    assert Inv(node, FirstBoot);
    RunServes(node, FirstBoot, events, first);
  }

  /** The command each slot began last. */
  ghost function Begun(node: Node, c: Cluster, events: seq<ClusterEvent>, begun: map<Slot, Command>): map<Slot, Command>
    requires ValidProvider(node.site.provider)
    decreases |events|
  {
    if events == [] then begun
    else Begun(node, NextCluster(node, c, events[0]), events[1..],
               if events[0].Begin? && MayBegin(c, events[0].slot, events[0].cmd) then begun[events[0].slot := events[0].cmd] else begun)
  }

  ghost predicate AllServe(c: Cluster, begun: map<Slot, Command>) {
    forall s :: s in c.running ==> s in begun && Serves(c.running[s], begun[s])
  }

  lemma {:induction false} ClusterServes(node: Node, c: Cluster, e: ClusterEvent, begun: map<Slot, Command>)
    requires ValidProvider(node.site.provider) && ClusterInv(node, c) && AllServe(c, begun)
    ensures AllServe(NextCluster(node, c, e), if e.Begin? && MayBegin(c, e.slot, e.cmd) then begun[e.slot := e.cmd] else begun)
  {
    hide ClusterInv, PluginStep, Runs.Next, MayBegin, Blocked;
    if e.Advance? && e.slot in c.running {
      SlotInv(node, c, e.slot);
      StepServes(node, At(c, e.slot), e.answers, begun[e.slot]);
    }
  }

  lemma {:induction false} RunClusterServes(node: Node, c: Cluster, events: seq<ClusterEvent>, begun: map<Slot, Command>)
    requires ValidProvider(node.site.provider) && ClusterInv(node, c) && AllServe(c, begun)
    ensures AllServe(RunCluster(node, c, events), Begun(node, c, events, begun))
    decreases |events|
  {
    hide ClusterInv, AllServe, NextCluster, MayBegin;
    if events != [] {
      var e := events[0];
      ClusterServes(node, c, e, begun);
      NextClusterSafe(node, c, e);
      RunClusterServes(node, NextCluster(node, c, e), events[1..], if e.Begin? && MayBegin(c, e.slot, e.cmd) then begun[e.slot := e.cmd] else begun);
    }
  }

  /** Among other commands too, each reports only on what it was asked. */
  lemma {:induction false} InterleavedReportsAreOwn(node: Node, events: seq<ClusterEvent>, slot: Slot, a: Answers)
    requires ValidProvider(node.site.provider) && slot in RunCluster(node, FirstCluster, events).running
    ensures var h := PluginStep(node, At(RunCluster(node, FirstCluster, events), slot), a);
      var begun := Begun(node, FirstCluster, events, map[]);
      && slot in begun
      && (h.pc.Idle? && h.pc.report.Added? ==> begun[slot].Add? && Fits(h.pc.report.record.spec, begun[slot].spec))
      && (h.pc.Idle? && h.pc.report.Deleted? ==> begun[slot] == Del(h.pc.report.key))
  {
    hide RunCluster, Begun, ClusterInv, PluginStep;
    ReachableCluster(node, []);
    assert ClusterInv(node, FirstCluster) by { assert RunCluster(node, FirstCluster, []) == FirstCluster by { EmptyRun(node); } }
    RunClusterServes(node, FirstCluster, events, map[]);
    ReachableCluster(node, events);
    var c := RunCluster(node, FirstCluster, events);
    SlotInv(node, c, slot);
    StepServes(node, At(c, slot), a, Begun(node, FirstCluster, events, map[])[slot]);
  }

  lemma {:induction false} EmptyRun(node: Node)
    requires ValidProvider(node.site.provider)
    ensures RunCluster(node, FirstCluster, []) == FirstCluster
  {
  }

  /** A request that differs from the record of its key in namespace, MTU or bound workload fails
      at once, whatever the agent answers, and leaves journal, file and links as they were. */
  lemma {:induction false} ConflictingAddFails(node: Node, h: Host, spec: Spec, a: Answers)
    requires ValidProvider(node.site.provider) && (h.pc == AddInspect(spec) || h.pc == AddPrepare(spec))
    requires spec.key in h.agent.journal.table && !Fits(h.agent.journal.table[spec.key].spec, spec)
    ensures var n := PluginStep(node, h, a);
      n.pc == Idle(Failure) && n.links == h.links && n.queue == h.queue && n.agent.journal == h.agent.journal && n.agent.disk == h.agent.disk
  {
    hide LegacyBlocked, ValidSpec, ValidKey, Fits, Spec.AcceptsReplay;
    ReplayFits(h.agent.journal.table[spec.key].spec, spec);
  }
}
