/** What a reported DEL means for the journal file, and not only for the agent's memory. */
module DeleteDurability {
  import opened Results
  import opened Attachments
  import opened JournalModel
  import opened Lifecycle
  import opened LifecycleSafety
  import opened DeferredDeletes

  /** The file holds no record of the key that memory does not know. */
  predicate Settled(agent: Runs.World, key: Key) {
    key in agent.disk.table ==> key in agent.journal.table
  }

  /** A delete that has begun works on a record memory knew. */
  predicate PcSettled(h: Host) {
    match h.pc
    case DeleteCleanup(record, _) => Settled(h.agent, record.spec.key)
    case DeleteComplete(key, _) => Settled(h.agent, key)
    case _ => true
  }

  /** What memory does not know and the file does is one record whose ADD failed after the
      rename: Preparing, with nothing else different and no fence. */
  lemma {:induction false} LeftoverIsPreparing(node: Node, h: Host, key: Key)
    requires Runs.Inv(node.site, h.agent) && h.agent.open && key !in h.agent.journal.table && key in h.agent.disk.table
    ensures h.agent.journal.instance.None? && h.agent.disk.table[key].phase == Preparing
    ensures h.agent.disk.table - {key} == h.agent.journal.table
  {
    hide ValidTable;
    var table, durable := h.agent.journal.table, h.agent.disk.table;
    assert table != durable;
    var moved, next :| durable == Store(table, moved, next) && LegalMove(Lookup(table, moved), next);
    assert moved == key;
    assert durable - {key} == table;
  }

  lemma {:induction false} AgentEventSettles(node: Node, h: Host, event: Runs.Event, key: Key)
    requires ValidProvider(node.site.provider) && Runs.Inv(node.site, h.agent) && !event.Transact? && Settled(h.agent, key)
    ensures Settled(Runs.Next(node.site, h.agent, event), key)
  {
    hide ValidTable, Runs.Near, JournalDocument.Load, JournalDocument.Encode;
    Runs.LoadsAgain(node.site, h.agent);
  }

  /** How a delete step leaves file and memory. */
  ghost predicate DeleteLeaves(h: Host, h': Host) {
    && PcSettled(h')
    && (h'.pc.DrainRemove? || (h'.pc.Idle? && h'.pc.report.Deleted?) ==>
          var key := if h'.pc.DrainRemove? then h'.pc.key else h'.pc.report.key;
          key in h'.agent.disk.table <==> h.pc.DeleteBegin? && key in h.agent.disk.table)
  }

  lemma {:induction false} BeginLeavesFile(node: Node, h: Host, key: Key, a: Answers)
    requires ValidProvider(node.site.provider) && Runs.Inv(node.site, h.agent)
    ensures var (h', reply) := Transact(node, h, BeginDelete(key), a);
      reply.Answer? ==>
        && (reply.attachment.None? ==> h'.agent.disk == h.agent.disk)
        && (reply.attachment.Some? ==> key in h'.agent.journal.table && reply.attachment.value.spec.key == key)
  {
    hide ValidTable, LegacyBlocked, Runs.Near;
    KeyOfRecord(node, h, key);
  }

  lemma {:induction false} CompleteLeavesFile(node: Node, h: Host, key: Key, a: Answers)
    requires ValidProvider(node.site.provider) && Runs.Inv(node.site, h.agent) && Settled(h.agent, key)
    ensures var (h', reply) := Transact(node, h, CompleteDelete(key), a); reply.Answer? ==> key !in h'.agent.disk.table
  {
    hide ValidTable, LegacyBlocked, Runs.Near;
  }

  lemma {:induction false} BeginStepLeaves(node: Node, h: Host, a: Answers)
    requires ValidProvider(node.site.provider) && QueueInv(h) && Inv(node, h) && h.pc.DeleteBegin?
    ensures DeleteLeaves(h, StepDelete(node, h, a))
  {
    hide Runs.Inv, Transact, LinksBacked, PcSafe;
    TransactKeepsLinks(node, h, BeginDelete(h.pc.key), a);
    BeginDeleteReply(node, h, h.pc.key, a);
    BeginLeavesFile(node, h, h.pc.key, a);
  }

  lemma {:induction false} LaterStepLeaves(node: Node, h: Host, a: Answers)
    requires ValidProvider(node.site.provider) && QueueInv(h) && Inv(node, h) && PcSettled(h) && (h.pc.DeleteCleanup? || h.pc.DeleteComplete?)
    ensures DeleteLeaves(h, StepDelete(node, h, a))
  {
    hide Runs.Inv, Transact, LinksBacked, PcSafe;
    if h.pc.DeleteComplete? { CompleteLeavesFile(node, h, h.pc.key, a); }
  }

  /** Other steps begin no delete and report none that is not queued. */
  lemma {:induction false} DrainStepSettles(h: Host, a: Answers)
    requires h.pc.DrainList? || h.pc.DrainRemove? || h.pc.Enqueue?
    ensures var h' := StepDrain(h, a); PcSettled(h') && !h'.pc.DrainRemove? && (h'.pc.Idle? && h'.pc.report.Deleted? ==> h'.pc.report.key in h'.queue)
  {
    hide SortedKeys, QueuedIn;
  }

  lemma {:induction false} QuietStepSettles(node: Node, h: Host, a: Answers)
    requires ValidProvider(node.site.provider)
    requires !(h.pc.DrainList? || h.pc.DrainRemove? || h.pc.Enqueue? || h.pc.DeleteBegin? || h.pc.DeleteCleanup? || h.pc.DeleteComplete?)
    ensures var h' := PluginStep(node, h, a); !h'.pc.DeleteCleanup? && !h'.pc.DeleteComplete?
  {
    hide Transact, Listing, Unlink;
  }

  /** What a plugin step that ends a delete says about the file. */
  ghost predicate FileReports(h: Host, h': Host) {
    h'.pc.DrainRemove? || (h'.pc.Idle? && h'.pc.report.Deleted?) ==>
      var key := if h'.pc.DrainRemove? then h'.pc.key else h'.pc.report.key;
      (h'.pc.Idle? && key in h'.queue) || (key in h'.agent.disk.table <==> h.pc.DeleteBegin? && key in h.agent.disk.table)
  }

  lemma {:induction false} StepFileReports(node: Node, h: Host, a: Answers)
    requires ValidProvider(node.site.provider) && QueueInv(h) && Inv(node, h) && PcSettled(h) && !h.pc.Idle?
    ensures PcSettled(PluginStep(node, h, a)) && FileReports(h, PluginStep(node, h, a))
  {
    hide StepDrain, StepDelete, StepAdd, StepFinish, StepCollect, Inv, QueueInv, PcQueued;
    if h.pc.DrainList? || h.pc.DrainRemove? || h.pc.Enqueue? {
      DrainStepSettles(h, a);
    } else if h.pc.DeleteBegin? {
      BeginStepLeaves(node, h, a);
    } else if h.pc.DeleteCleanup? || h.pc.DeleteComplete? {
      LaterStepLeaves(node, h, a);
    } else {
      OtherStepQueued(node, h, a);
      QuietStepSettles(node, h, a);
    }
  }

  lemma {:induction false} NextSettles(node: Node, h: Host, e: Event)
    requires ValidProvider(node.site.provider) && QueueInv(h) && Inv(node, h) && PcSettled(h)
    ensures PcSettled(Next(node, h, e))
  {
    hide Runs.Inv, QueueInv, LinksBacked, PcSafe, PluginStep, Runs.Next, Settled, Accepted, FileReports;
    match e
    case Start(_) =>
    case Step(a) => if h.pc.Idle? { IdleStep(node, h, a); } else { StepFileReports(node, h, a); }
    case PluginCrash =>
    case AgentEvent(event) =>
      if !event.Transact? && h.pc.DeleteCleanup? { AgentEventSettles(node, h, event, h.pc.record.spec.key); }
      if !event.Transact? && h.pc.DeleteComplete? { AgentEventSettles(node, h, event, h.pc.key); }
    case Reboot =>
  }

  lemma {:induction false} IdleStep(node: Node, h: Host, a: Answers)
    requires ValidProvider(node.site.provider) && h.pc.Idle?
    ensures PluginStep(node, h, a) == h
  {
  }

  lemma {:induction false} RunSettles(node: Node, h: Host, events: seq<Event>)
    requires ValidProvider(node.site.provider) && QueueInv(h) && Inv(node, h) && PcSettled(h)
    ensures PcSettled(Run(node, h, events))
    decreases |events|
  {
    hide Inv, QueueInv, PcSettled, Next;
    if events != [] {
      NextSettles(node, h, events[0]);
      NextQueued(node, h, events[0]);
      NextSafe(node, h, events[0]);
      RunSettles(node, Next(node, h, events[0]), events[1..]);
    }
  }

  lemma {:induction false} ReachableSettled(node: Node, events: seq<Event>)
    requires ValidProvider(node.site.provider)
    ensures var h := Run(node, FirstBoot, events); PcSettled(h) && QueueInv(h) && Inv(node, h)
  {
    ReachableQueued(node, events);
    assert Inv(node, FirstBoot) && QueueInv(FirstBoot) && PcSettled(FirstBoot);
    RunSettles(node, FirstBoot, events);
  }

  /** The file still holds the key exactly if the step began the delete and the key was there
      before; what is left then is one Preparing record, nothing else differs, and the fence is gone. */
  ghost predicate FileKeeps(h: Host, h': Host, key: Key) {
    && (key in h'.agent.disk.table <==> h.pc.DeleteBegin? && key in h.agent.disk.table)
    && (key in h'.agent.disk.table ==>
          && h'.agent.journal.instance.None? && h'.agent.disk.table[key].phase == Preparing
          && h'.agent.disk.table - {key} == h'.agent.journal.table)
  }

  /** What any step that ends a delete leaves in the file. */
  lemma {:induction false} EndedDelete(node: Node, h: Host, a: Answers)
    requires ValidProvider(node.site.provider) && QueueInv(h) && Inv(node, h) && PcSettled(h) && !h.pc.Idle?
    ensures var h' := PluginStep(node, h, a);
      && (h'.pc.Idle? && h'.pc.report.Deleted? && h'.pc.report.key !in h'.queue ==> FileKeeps(h, h', h'.pc.report.key))
      && (h'.pc.DrainRemove? ==> FileKeeps(h, h', h'.pc.key))
  {
    hide PluginStep, QueueInv, NoLink, LinksBacked, PcSafe, Runs.Inv;
    var h' := PluginStep(node, h, a);
    StepFileReports(node, h, a);
    StepReports(node, h, a);
    PluginStepSafe(node, h, a);
    if h'.pc.DrainRemove? && h'.pc.key in h'.agent.disk.table { LeftoverIsPreparing(node, h', h'.pc.key); }
    if h'.pc.Idle? && h'.pc.report.Deleted? && h'.pc.report.key !in h'.queue && h'.pc.report.key in h'.agent.disk.table {
      LeftoverIsPreparing(node, h', h'.pc.report.key);
    }
  }

  /** A DEL that reports success without being queued has left the file too, exactly unless
      it found the key unknown to memory and still in the file. It is never left there by a
      completed delete, nor while the journal has its fence; what is left is one Preparing
      record whose ADD failed after the rename. */
  lemma {:induction false} ReportedDeleteIsDurable(node: Node, events: seq<Event>, a: Answers)
    requires ValidProvider(node.site.provider)
    requires var h := Run(node, FirstBoot, events); var h' := PluginStep(node, h, a);
      !h.pc.Idle? && h'.pc.Idle? && h'.pc.report.Deleted? && h'.pc.report.key !in h'.queue
    ensures var h := Run(node, FirstBoot, events); var h' := PluginStep(node, h, a); FileKeeps(h, h', h'.pc.report.key)
  {
    hide Run, PluginStep, QueueInv, Inv, PcSettled;
    ReachableSettled(node, events);
    EndedDelete(node, Run(node, FirstBoot, events), a);
  }

  /** The same for an entry that is about to leave the queue. */
  lemma {:induction false} DrainedDeleteIsDurable(node: Node, events: seq<Event>, a: Answers)
    requires ValidProvider(node.site.provider)
    requires var h := Run(node, FirstBoot, events); !h.pc.Idle? && PluginStep(node, h, a).pc.DrainRemove?
    ensures var h := Run(node, FirstBoot, events); var h' := PluginStep(node, h, a); FileKeeps(h, h', h'.pc.key)
  {
    hide Run, PluginStep, QueueInv, Inv, PcSettled;
    ReachableSettled(node, events);
    EndedDelete(node, Run(node, FirstBoot, events), a);
  }

  lemma {:induction false} RunOn(node: Node, h: Host, first: seq<Event>, second: seq<Event>)
    requires ValidProvider(node.site.provider)
    ensures Run(node, h, first + second) == Run(node, Run(node, h, first), second)
    decreases |first|
  {
    hide Next;
    if first == [] {
      assert first + second == second;
    } else {
      assert (first + second)[1..] == first[1..] + second;
      RunOn(node, Next(node, h, first[0]), first[1..], second);
    }
  }

  lemma {:induction false} RunThree(node: Node, h: Host, a: Event, b: Event, c: Event)
    requires ValidProvider(node.site.provider)
    ensures Run(node, h, [a, b, c]) == Next(node, Next(node, Next(node, h, a), b), c)
  {
    hide Next;
    assert [a, b, c][1..] == [b, c] && [b, c][1..] == [c] && [c][1..] == [];
    assert Run(node, Next(node, h, a), [b, c]) == Run(node, Next(node, Next(node, h, a), b), [c]);
    assert Run(node, Next(node, Next(node, h, a), b), [c]) == Run(node, Next(node, Next(node, Next(node, h, a), b), c), []);
  }

  /** A step that meets no failure, and one whose write reaches the file but reports an error. */
  const Well := Answers(Env(None, false, Persisted, 0), false, false, false)
  const LostWrite := Answers(Env(None, false, FailedAfterRename, 0), false, false, false)

  /** A running agent with an empty journal, no links and an empty queue. */
  predicate Quiet(h: Host, lastAdd: map<string, nat>) {
    h.agent.open && h.links == {} && h.queue == map[] && h.lastAdd == lastAdd && h.agent.journal.Serving() && h.agent.journal.table == map[]
  }

  lemma {:induction false} FirstOpen(node: Node)
    requires ValidProvider(node.site.provider)
    ensures var h := Next(node, FirstBoot, AgentEvent(Runs.Open));
      && Quiet(h, map[]) && h.pc.Idle? && h.agent.journal == Journal(map[], Some(0), 0, None, false) && h.agent.disk == Image(map[], false)
  {
    assert Runs.Inv(node.site, Runs.FirstBoot);
    Runs.LoadsAgain(node.site, Runs.FirstBoot);
    hide JournalDocument.Load, JournalDocument.Encode;
  }

  lemma {:induction false} NothingQueued(h: Host, network: string)
    requires h.queue == map[]
    ensures SortedKeys(QueuedIn(h, network)) == []
  {
    assert QueuedIn(h, network) == {};
  }

  /** An accepted command drains an empty queue and starts. */
  lemma {:induction false} StartsAtOnce(node: Node, h: Host, cmd: Command)
    requires ValidProvider(node.site.provider) && h.pc.Idle? && h.queue == map[] && Accepted(cmd)
    ensures var n := Next(node, Next(node, h, Start(cmd)), Step(Well));
      n == StartLifecycle(h.(clock := h.clock + 1), cmd).(clock := h.clock + 2)
  {
    hide Accepted, SortedKeys, QueuedIn, StartLifecycle;
    NothingQueued(h.(pc := DrainList(cmd), clock := h.clock + 1), NetworkOf(cmd));
    StartForgetsPc(h.(clock := h.clock + 1), DrainList(cmd), cmd);
  }

  lemma {:induction false} StartForgetsPc(h: Host, pc: Pc, cmd: Command)
    ensures StartLifecycle(h.(pc := pc), cmd) == StartLifecycle(h, cmd)
  {
  }

  /** The ADD: the record reaches the file, the error reaches the plugin. */
  lemma {:induction false} AddLosesWrite(node: Node, h: Host, spec: Spec)
    requires ValidProvider(node.site.provider) && ValidSpec(spec) && spec.workloadUid.None? && Allocate(node.site.provider, map[]).Ok?
    requires h.pc == AddInspect(spec) && h.agent.open && h.agent.journal == Journal(map[], Some(0), 0, None, false) && h.agent.disk == Image(map[], false)
    ensures var n := Next(node, Next(node, h, Step(Well)), Step(LostWrite));
      && n.pc == Idle(Failure) && n.agent.open && n.links == h.links && n.queue == h.queue
      && n.agent.journal == Journal(map[], None, 0, None, false)
      && n.agent.disk.table.Keys == {spec.key} && n.agent.disk.table[spec.key].phase == Preparing && !n.agent.disk.required
  {
    hide Allocate, LegacyBlocked;
    var mid := Next(node, h, Step(Well));
    assert mid.pc == AddPrepare(spec) && mid.agent.journal == h.agent.journal && mid.agent.disk == h.agent.disk;
    var record := Record(spec, node.site.hostName(spec.key), Allocate(node.site.provider, map[]).value, Preparing, None);
    assert map[][spec.key := record] - {spec.key} == map[];
  }

  /** The DEL: memory knows no such key, so there is nothing to do. */
  lemma {:induction false} DelFindsNothing(node: Node, h: Host, key: Key)
    requires ValidProvider(node.site.provider) && ValidKey(key) && h.pc == DeleteBegin(key, OfCommand(key)) && h.agent.open
    requires h.agent.journal.Serving() && key !in h.agent.journal.table
    ensures var n := Next(node, h, Step(Well));
      n.pc == Idle(Deleted(key)) && n.agent.open && n.agent.journal == h.agent.journal && n.agent.disk == h.agent.disk && n.queue == h.queue && n.links == h.links
  {
    hide ValidKey, LegacyBlocked;
  }

  /** A reported DEL can leave the key in the file, and the next reopen brings it back: an
      ADD whose write reached the file without being reported, then a DEL. */
  lemma {:induction false} DeletedKeyCanReturn(node: Node, spec: Spec)
    requires ValidProvider(node.site.provider) && ValidSpec(spec) && spec.workloadUid.None? && Allocate(node.site.provider, map[]).Ok?
    requires Accepted(Add(spec)) && Accepted(Del(spec.key))
    ensures var deleted := Run(node, FirstBoot,
        [AgentEvent(Runs.Open), Start(Add(spec)), Step(Well)] + [Step(Well), Step(LostWrite), Start(Del(spec.key))] + [Step(Well), Step(Well)]);
      var reopened := Next(node, Next(node, deleted, AgentEvent(Runs.Crash)), AgentEvent(Runs.Open));
      && deleted.pc == Idle(Deleted(spec.key)) && spec.key !in deleted.queue
      && spec.key !in deleted.agent.journal.table && spec.key in deleted.agent.disk.table
      && reopened.agent.open && spec.key in reopened.agent.journal.table && reopened.agent.journal.table[spec.key].phase == Preparing
  {
    var one, two, three := [AgentEvent(Runs.Open), Start(Add(spec)), Step(Well)], [Step(Well), Step(LostWrite), Start(Del(spec.key))], [Step(Well), Step(Well)];
    RunOn(node, FirstBoot, one + two, three);
    RunOn(node, FirstBoot, one, two);
    RunThree(node, FirstBoot, AgentEvent(Runs.Open), Start(Add(spec)), Step(Well));
    var booted := Next(node, FirstBoot, AgentEvent(Runs.Open));
    FirstOpen(node);
    StartsAtOnce(node, booted, Add(spec));
    var adding := Run(node, FirstBoot, one);
    RunThree(node, adding, Step(Well), Step(LostWrite), Start(Del(spec.key)));
    AddLosesWrite(node, adding, spec);
    var failed := Next(node, Next(node, adding, Step(Well)), Step(LostWrite));
    StartsAtOnce(node, failed, Del(spec.key));
    var deleting := Next(node, Next(node, failed, Start(Del(spec.key))), Step(Well));
    DelFindsNothing(node, deleting, spec.key);
    RunPair(node, Next(node, failed, Start(Del(spec.key))), Step(Well), Step(Well));
    var deleted := Next(node, deleting, Step(Well));
    ReopenReadsFile(node, deleted, one + two + three);
  }

  lemma {:induction false} RunPair(node: Node, h: Host, a: Event, b: Event)
    requires ValidProvider(node.site.provider)
    ensures Run(node, h, [a, b]) == Next(node, Next(node, h, a), b)
  {
    hide Next;
    assert [a, b][1..] == [b] && [b][1..] == [];
    assert Run(node, Next(node, h, a), [b]) == Run(node, Next(node, Next(node, h, a), b), []);
  }

  lemma {:induction false} ReopenReadsFile(node: Node, h: Host, events: seq<Event>)
    requires ValidProvider(node.site.provider) && h == Run(node, FirstBoot, events)
    ensures var n := Next(node, Next(node, h, AgentEvent(Runs.Crash)), AgentEvent(Runs.Open));
      n.agent.open && n.agent.journal.table == h.agent.disk.table
  {
    hide Run;
    ReachableQueued(node, events);
    Runs.NextKeepsInv(node.site, h.agent, Runs.Crash);
    Runs.LoadsAgain(node.site, Runs.Next(node.site, h.agent, Runs.Crash));
    hide JournalDocument.Load, JournalDocument.Encode, QueueInv;
  }
}
