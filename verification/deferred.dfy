/** The durable queue of deferred deletes: what a reported DEL means, when an entry may
    leave, why none overtakes an ADD, and exactly when a drain succeeds. */
module DeferredDeletes {
  import opened Results
  import opened Orders
  import opened Attachments
  import opened JournalModel
  import opened AttachmentJournals
  import opened Lifecycle
  import opened LifecycleSafety
  import opened PluginSteps

  function CallerKey(caller: Caller, key: Key): Key {
    match caller
    case OfCommand(k) => k
    case OfDrain(k, _, _) => k
    case OfCollector(_) => key
  }

  /** While a drain runs, every queued key of its network is still on its list. */
  ghost predicate Listed(h: Host, key: Key, rest: seq<Key>, cmd: Command) {
    forall k :: k in h.queue && k.network == NetworkOf(cmd) ==> k == key || k in rest
  }

  ghost predicate CallerQueued(h: Host, caller: Caller) {
    caller.OfDrain? ==> Listed(h, caller.key, caller.rest, caller.cmd)
  }

  ghost predicate PcQueued(h: Host) {
    match h.pc
    case DeleteBegin(key, caller) => CallerKey(caller, key) == key && CallerQueued(h, caller)
    case DeleteCleanup(record, caller) => CallerKey(caller, record.spec.key) == record.spec.key && CallerQueued(h, caller)
    case DeleteComplete(key, caller) => CallerKey(caller, key) == key && CallerQueued(h, caller)
    case DrainRemove(key, rest, cmd) => Listed(h, key, rest, cmd) && NoLink(h, key)
    case AddVerify(record) => record.phase == Ready
    case _ => true
  }

  ghost predicate QueueInv(h: Host) {
    && (forall n :: n in h.lastAdd ==> h.lastAdd[n] < h.clock)
    && (forall k :: k in h.queue ==> h.queue[k] < h.clock)
    && (forall k :: k in h.queue && k.network in h.lastAdd ==> h.lastAdd[k.network] < h.queue[k])
    && PcQueued(h)
  }

  lemma {:induction false} DrainNextQueued(h: Host, pending: seq<Key>, cmd: Command)
    requires forall n :: n in h.lastAdd ==> h.lastAdd[n] < h.clock
    requires forall k :: k in h.queue ==> h.queue[k] < h.clock
    requires forall k :: k in h.queue && k.network in h.lastAdd ==> h.lastAdd[k.network] < h.queue[k]
    requires forall k :: k in h.queue && k.network == NetworkOf(cmd) ==> k in pending
    ensures QueueInv(DrainNext(h, pending, cmd).(clock := h.clock + 1))
  {
  }

  lemma {:induction false} StepDrainQueued(node: Node, h: Host, a: Answers)
    requires QueueInv(h) && Inv(node, h) && (h.pc.DrainList? || h.pc.DrainRemove? || h.pc.Enqueue?)
    ensures QueueInv(StepDrain(h, a).(clock := h.clock + 1))
  {
    hide Inv, DrainNext, PcQueued, QueueInv;
    match h.pc
    case DrainList(cmd) => DrainListQueued(h, a);
    case DrainRemove(key, rest, cmd) => DrainRemoveQueued(h, a);
    case Enqueue(key, transport) => EnqueueQueued(h, a);
  }

  lemma {:induction false} DrainListQueued(h: Host, a: Answers)
    requires QueueInv(h) && h.pc.DrainList?
    ensures QueueInv(StepDrain(h, a).(clock := h.clock + 1))
  {
    hide DrainNext, SortedKeys, QueuedIn;
    ListsAllQueued(h, NetworkOf(h.pc.cmd));
    DrainNextQueued(h, SortedKeys(QueuedIn(h, NetworkOf(h.pc.cmd))), h.pc.cmd);
  }

  lemma {:induction false} ListsAllQueued(h: Host, network: string)
    ensures forall k :: k in h.queue && k.network == network ==> k in SortedKeys(QueuedIn(h, network))
  {
  }

  lemma {:induction false} DrainRemoveQueued(h: Host, a: Answers)
    requires QueueInv(h) && h.pc.DrainRemove?
    ensures QueueInv(StepDrain(h, a).(clock := h.clock + 1))
  {
    hide DrainNext, SortedKeys;
    DrainNextQueued(h.(queue := h.queue - {h.pc.key}), h.pc.rest, h.pc.cmd);
  }

  lemma {:induction false} EnqueueQueued(h: Host, a: Answers)
    requires QueueInv(h) && h.pc.Enqueue?
    ensures QueueInv(StepDrain(h, a).(clock := h.clock + 1))
  {
    hide SortedKeys, QueuedIn;
  }

  lemma {:induction false} StepDeleteQueued(node: Node, h: Host, a: Answers)
    requires ValidProvider(node.site.provider) && QueueInv(h) && Inv(node, h)
    requires h.pc.DeleteBegin? || h.pc.DeleteCleanup? || h.pc.DeleteComplete?
    ensures QueueInv(StepDelete(node, h, a).(clock := h.clock + 1))
    ensures var h' := StepDelete(node, h, a);
      h'.pc.DrainRemove? || (h'.pc.Idle? && h'.pc.report.Deleted?) ==>
        var key := if h'.pc.DrainRemove? then h'.pc.key else h'.pc.report.key;
        h'.agent.open && key !in h'.agent.journal.table && NoLink(h', key)
  {
    hide Inv, StepDelete, QueueInv, PcQueued;
    match h.pc
    case DeleteBegin(_, _) => DeleteBeginQueued(node, h, a);
    case DeleteCleanup(_, _) => DeleteCleanupQueued(node, h, a);
    case DeleteComplete(_, _) => DeleteCompleteQueued(node, h, a);
  }

  /** What one step of a delete does to the queue, and what its outcome means. */
  ghost predicate DeleteStep(h: Host, h': Host) {
    && QueueInv(h'.(clock := h.clock + 1))
    && (h'.pc.DrainRemove? || (h'.pc.Idle? && h'.pc.report.Deleted?) ==>
          var key := if h'.pc.DrainRemove? then h'.pc.key else h'.pc.report.key;
          h'.agent.open && key !in h'.agent.journal.table && NoLink(h', key))
  }

  lemma {:induction false} DeleteBeginQueued(node: Node, h: Host, a: Answers)
    requires ValidProvider(node.site.provider) && QueueInv(h) && Inv(node, h) && h.pc.DeleteBegin?
    ensures DeleteStep(h, StepDelete(node, h, a))
  {
    hide Runs.Inv, Transact, LinksBacked, PageSafe;
    TransactKeepsLinks(node, h, BeginDelete(h.pc.key), a);
    BeginDeleteReply(node, h, h.pc.key, a);
    if h.agent.open { RememberedIsOnly(node, h, h.pc.key); KeyOfRecord(node, h, h.pc.key); }
  }

  lemma {:induction false} DeleteCleanupQueued(node: Node, h: Host, a: Answers)
    requires ValidProvider(node.site.provider) && QueueInv(h) && Inv(node, h) && h.pc.DeleteCleanup?
    ensures DeleteStep(h, StepDelete(node, h, a))
  {
    hide Runs.Inv, LinksBacked, Unlink, PageSafe;
    UnlinkSafe(node, h, h.pc.record, a);
  }

  lemma {:induction false} DeleteCompleteQueued(node: Node, h: Host, a: Answers)
    requires ValidProvider(node.site.provider) && QueueInv(h) && Inv(node, h) && h.pc.DeleteComplete?
    ensures DeleteStep(h, StepDelete(node, h, a))
  {
    hide Runs.Inv, Transact, LinksBacked, PageSafe;
    assert forall k :: Drops(CompleteDelete(h.pc.key), k) ==> NoLink(h, k);
    TransactKeepsLinks(node, h, CompleteDelete(h.pc.key), a);
    CompleteReply(node, h, CompleteDelete(h.pc.key), h.pc.key, a);
  }

  /** A step that leaves the queue alone, finishes no drain and reports no DEL. */
  ghost predicate QuietStep(h: Host, h': Host) {
    && h'.queue == h.queue && h'.lastAdd == h.lastAdd && h'.clock == h.clock && !h'.pc.DrainRemove?
    && (h'.pc.Idle? && h'.pc.report.Deleted? ==> h'.pc == h.pc)
    && (h'.pc.Idle? && h'.pc.report.Added? && h'.pc != h.pc ==>
          PlanOf(h'.pc.report.record) in h'.links && h'.pc.report.record.phase == Ready)
    && PcQueued(h')
  }

  lemma {:induction false} QuietKeepsQueue(h: Host, h': Host)
    requires QueueInv(h) && QuietStep(h, h')
    ensures QueueInv(h'.(clock := h.clock + 1))
  {
  }

  lemma {:induction false} TransactFrame(node: Node, h: Host, op: Operation, a: Answers)
    requires ValidProvider(node.site.provider)
    ensures var h' := Transact(node, h, op, a).0; h' == h.(agent := h'.agent)
  {
    hide Runs.Next, Apply;
  }

  lemma {:induction false} StepAddQuiet(node: Node, h: Host, a: Answers)
    requires ValidProvider(node.site.provider) && PcQueued(h)
    requires h.pc.AddInspect? || h.pc.AddVerify? || h.pc.AddRecover? || h.pc.AddRecoverComplete? || h.pc.AddPrepare?
    ensures QuietStep(h, StepAdd(node, h, a))
  {
    hide Transact;
    match h.pc
    case AddInspect(spec) => TransactFrame(node, h, Inspect(spec.key), a);
    case AddVerify(record) =>
    case AddRecover(spec, record) =>
    case AddRecoverComplete(spec) => TransactFrame(node, h, CompleteAbort(spec.key), a);
    case AddPrepare(spec) => TransactFrame(node, h, Prepare(spec), a);
  }

  lemma {:induction false} StepFinishQuiet(node: Node, h: Host, a: Answers)
    requires ValidProvider(node.site.provider) && PcQueued(h) && Inv(node, h)
    requires h.pc.AddLink? || h.pc.AddRoutes? || h.pc.AddCommit? || h.pc.AbortBegin? || h.pc.AbortUnlink? || h.pc.AbortComplete?
    ensures QuietStep(h, StepFinish(node, h, a))
  {
    hide Transact, Runs.Inv, LinksBacked;
    match h.pc
    case AddCommit(record) =>
      TransactFrame(node, h, Commit(record.spec.key), a);
      CommitReply(node, h, record.spec.key, a);
      CommitOpen(node, h, record.spec.key, a);
    case AbortBegin(record, _) => TransactFrame(node, h, BeginAbort(record.spec.key), a);
    case AbortComplete(key) => TransactFrame(node, h, CompleteAbort(key), a);
    case AddLink(_) =>
    case AddRoutes(_) =>
    case AbortUnlink(_) =>
  }

  lemma {:induction false} CommitOpen(node: Node, h: Host, key: Key, a: Answers)
    requires ValidProvider(node.site.provider)
    ensures Transact(node, h, Commit(key), a).1.Answer? ==> h.agent.open
  {
    hide Runs.Next, Apply;
  }

  lemma {:induction false} StepCollectQuiet(node: Node, h: Host, a: Answers)
    requires ValidProvider(node.site.provider) && PcQueued(h)
    requires h.pc.CollectList? || h.pc.CollectRecord? || h.pc.CollectAborting? || h.pc.CollectAborted?
    ensures QuietStep(h, StepCollect(node, h, a))
  {
    hide Transact, Listing;
    match h.pc
    case CollectList(network, _, after, _) => TransactFrame(node, h, List(network, after, MAX_LIST_RECORDS), a);
    case CollectAborted(key, _) => TransactFrame(node, h, CompleteAbort(key), a);
    case CollectRecord(_) =>
    case CollectAborting(_, _) =>
  }

  lemma {:induction false} OtherStepQueued(node: Node, h: Host, a: Answers)
    requires ValidProvider(node.site.provider) && QueueInv(h) && Inv(node, h)
    requires !(h.pc.DrainList? || h.pc.DrainRemove? || h.pc.Enqueue? || h.pc.DeleteBegin? || h.pc.DeleteCleanup? || h.pc.DeleteComplete?)
    ensures QuietStep(h, PluginStep(node, h, a))
    ensures QueueInv(PluginStep(node, h, a).(clock := h.clock + 1))
  {
    hide Inv, StepAdd, StepFinish, StepCollect;
    if h.pc.Idle? {
    } else if h.pc.AddInspect? || h.pc.AddVerify? || h.pc.AddRecover? || h.pc.AddRecoverComplete? || h.pc.AddPrepare? {
      StepAddQuiet(node, h, a);
    } else if h.pc.CollectList? || h.pc.CollectRecord? || h.pc.CollectAborting? || h.pc.CollectAborted? {
      StepCollectQuiet(node, h, a);
    } else {
      StepFinishQuiet(node, h, a);
    }
    QuietKeepsQueue(h, PluginStep(node, h, a));
  }

  lemma {:induction false} StepQueued(node: Node, h: Host, a: Answers)
    requires ValidProvider(node.site.provider) && QueueInv(h) && Inv(node, h)
    ensures QueueInv(PluginStep(node, h, a).(clock := h.clock + 1))
  {
    hide Inv, StepDrain, StepDelete, StepAdd, StepFinish, StepCollect, QuietStep, QueueInv;
    if h.pc.DrainList? || h.pc.DrainRemove? || h.pc.Enqueue? { StepDrainQueued(node, h, a); }
    else if h.pc.DeleteBegin? || h.pc.DeleteCleanup? || h.pc.DeleteComplete? { StepDeleteQueued(node, h, a); }
    else { OtherStepQueued(node, h, a); }
  }

  lemma {:induction false} NextQueued(node: Node, h: Host, e: Event)
    requires ValidProvider(node.site.provider) && QueueInv(h) && Inv(node, h)
    ensures QueueInv(Next(node, h, e))
  {
    hide Inv, PluginStep, Runs.Next, Accepted;
    if e.Step? { StepQueued(node, h, e.answers); }
  }

  lemma {:induction false} RunQueued(node: Node, h: Host, events: seq<Event>)
    requires ValidProvider(node.site.provider) && QueueInv(h) && Inv(node, h)
    ensures QueueInv(Run(node, h, events)) && Inv(node, Run(node, h, events))
    decreases |events|
  {
    hide Inv, QueueInv, Next;
    if events != [] {
      NextQueued(node, h, events[0]);
      NextSafe(node, h, events[0]);
      RunQueued(node, Next(node, h, events[0]), events[1..]);
    }
  }

  /** Whatever fails, a queued delete was always queued after the last ADD of its network
      began: no delete queued before an ADD can still run after it. */
  lemma {:induction false} NoDeleteOvertakesAnAdd(node: Node, events: seq<Event>, key: Key)
    requires ValidProvider(node.site.provider)
    requires var h := Run(node, FirstBoot, events); key in h.queue && key.network in h.lastAdd
    ensures var h := Run(node, FirstBoot, events); h.lastAdd[key.network] < h.queue[key]
  {
    assert Inv(node, FirstBoot) && QueueInv(FirstBoot);
    RunQueued(node, FirstBoot, events);
  }

  lemma {:induction false} ReachableQueued(node: Node, events: seq<Event>)
    requires ValidProvider(node.site.provider)
    ensures QueueInv(Run(node, FirstBoot, events)) && Inv(node, Run(node, FirstBoot, events))
  {
    assert Inv(node, FirstBoot) && QueueInv(FirstBoot);
    RunQueued(node, FirstBoot, events);
  }

  /** The journal no longer knows the key and no link of it is left. */
  ghost predicate Gone(h: Host, key: Key) {
    h.agent.open && key !in h.agent.journal.table && NoLink(h, key)
  }

  /** What one plugin step can report, and what it can take off the queue. */
  ghost predicate Reports(h: Host, h': Host) {
    && (h'.pc.Idle? && h'.pc.report.Deleted? ==> h'.pc.report.key in h'.queue || Gone(h', h'.pc.report.key))
    && (h'.pc.Idle? && h'.pc.report.Added? ==> h'.pc.report.record.phase == Ready && PlanOf(h'.pc.report.record) in h'.links)
    && (forall k :: k in h.queue && k !in h'.queue ==> h.pc.DrainRemove? && h.pc.key == k)
    && (h'.pc.DrainRemove? ==> Gone(h', h'.pc.key))
  }

  lemma {:induction false} DrainReports(h: Host, a: Answers)
    requires h.pc.DrainList? || h.pc.DrainRemove? || h.pc.Enqueue?
    ensures Reports(h, StepDrain(h, a))
  {
    hide Gone, SortedKeys, QueuedIn;
  }

  lemma {:induction false} DeleteReports(node: Node, h: Host, a: Answers)
    requires ValidProvider(node.site.provider) && QueueInv(h) && Inv(node, h)
    requires h.pc.DeleteBegin? || h.pc.DeleteCleanup? || h.pc.DeleteComplete?
    ensures Reports(h, StepDelete(node, h, a))
  {
    hide StepDelete, Inv, QueueInv;
    StepDeleteQueued(node, h, a);
    DeleteNeverAdds(node, h, a);
  }

  lemma {:induction false} StepReports(node: Node, h: Host, a: Answers)
    requires ValidProvider(node.site.provider) && QueueInv(h) && Inv(node, h) && !h.pc.Idle?
    ensures Reports(h, PluginStep(node, h, a))
  {
    hide StepDrain, StepDelete, StepAdd, StepFinish, StepCollect, Inv, QueueInv, PcQueued, Gone;
    if h.pc.DrainList? || h.pc.DrainRemove? || h.pc.Enqueue? {
      DrainReports(h, a);
    } else if h.pc.DeleteBegin? || h.pc.DeleteCleanup? || h.pc.DeleteComplete? {
      DeleteReports(node, h, a);
    } else {
      OtherStepQueued(node, h, a);
    }
  }

  /** A DEL that reports success is queued, or gone from the journal with no link left. */
  lemma {:induction false} ReportedDeleteIsDone(node: Node, events: seq<Event>, a: Answers)
    requires ValidProvider(node.site.provider)
    requires var h := Run(node, FirstBoot, events);
      !h.pc.Idle? && PluginStep(node, h, a).pc.Idle? && PluginStep(node, h, a).pc.report.Deleted?
    ensures var h' := PluginStep(node, Run(node, FirstBoot, events), a);
      var key := h'.pc.report.key;
      key in h'.queue || (h'.agent.open && key !in h'.agent.journal.table && NoLink(h', key))
  {
    hide Run, PluginStep, QueueInv, Inv, NoLink;
    ReachableQueued(node, events);
    StepReports(node, Run(node, FirstBoot, events), a);
  }

  /** An ADD that reports success returns a Ready record whose pair is alive. */
  lemma {:induction false} ReportedAddIsAlive(node: Node, events: seq<Event>, a: Answers)
    requires ValidProvider(node.site.provider)
    requires var h := Run(node, FirstBoot, events);
      !h.pc.Idle? && PluginStep(node, h, a).pc.Idle? && PluginStep(node, h, a).pc.report.Added?
    ensures var h' := PluginStep(node, Run(node, FirstBoot, events), a);
      h'.pc.report.record.phase == Ready && PlanOf(h'.pc.report.record) in h'.links
  {
    hide Run, PluginStep, QueueInv, Inv, Gone;
    ReachableQueued(node, events);
    StepReports(node, Run(node, FirstBoot, events), a);
  }

  lemma {:induction false} DeleteNeverAdds(node: Node, h: Host, a: Answers)
    requires ValidProvider(node.site.provider)
    requires h.pc.DeleteBegin? || h.pc.DeleteCleanup? || h.pc.DeleteComplete?
    ensures var h' := StepDelete(node, h, a); h'.pc.Idle? ==> !h'.pc.report.Added?
    ensures StepDelete(node, h, a).queue == h.queue
  {
    hide Runs.Next, Apply;
  }

  /** Outside a plugin step no entry leaves the queue and no removal begins. */
  lemma {:induction false} OtherEventsKeepQueue(node: Node, h: Host, e: Event)
    requires ValidProvider(node.site.provider) && (!e.Step? || h.pc.Idle?)
    ensures Next(node, h, e).queue == h.queue && (Next(node, h, e).pc.DrainRemove? ==> h.pc.DrainRemove?)
  {
    hide Runs.Next, Accepted;
  }

  /** An entry leaves the queue only in the removal step of its own drain, with its link gone. */
  lemma {:induction false} LeavesQueueOnlyDeleted(node: Node, events: seq<Event>, e: Event, key: Key)
    requires ValidProvider(node.site.provider)
    requires var h := Run(node, FirstBoot, events); key in h.queue && key !in Next(node, h, e).queue
    ensures var h := Run(node, FirstBoot, events);
      h.pc.DrainRemove? && h.pc.key == key && NoLink(h, key)
  {
    hide Run, PluginStep, Inv, Gone, NoLink;
    ReachableQueued(node, events);
    var h := Run(node, FirstBoot, events);
    if e.Step? && !h.pc.Idle? { StepReports(node, h, e.answers); } else { OtherEventsKeepQueue(node, h, e); }
  }

  /** That removal step is reached only from a delete that left the key out of the journal. */
  lemma {:induction false} RemovalFollowsDelete(node: Node, events: seq<Event>, e: Event)
    requires ValidProvider(node.site.provider)
    requires var h := Run(node, FirstBoot, events); !h.pc.DrainRemove? && Next(node, h, e).pc.DrainRemove?
    ensures var h' := Next(node, Run(node, FirstBoot, events), e);
      h'.agent.open && h'.pc.key !in h'.agent.journal.table && NoLink(h', h'.pc.key)
  {
    hide Run, PluginStep, QueueInv, Inv;
    ReachableQueued(node, events);
    var h := Run(node, FirstBoot, events);
    if e.Step? && !h.pc.Idle? { StepReports(node, h, e.answers); } else { OtherEventsKeepQueue(node, h, e); }
  }

  /** A queued key whose delete an agent and kernel that never fail can complete. */
  predicate Drainable(node: Node, table: Table, key: Key) {
    ValidKey(key) && (key in table ==> table[key].phase != Aborting && node.buildable(PlanOf(table[key])))
  }

  /** The answers of an agent and a kernel that never fail. */
  const CALM := Answers(Env(None, false, Persisted, 0), false, false, false)

  function Calm(n: nat): Answers { CALM }

  /** Every record stands under its own key, as in every reachable journal. */
  predicate Keyed(table: Table) { forall k :: k in table ==> table[k].spec.key == k }

  /** The keys and pairs a drain of these entries takes away. */
  function PlansOf(table: Table, keys: seq<Key>): set<Plan> {
    set k | k in keys && k in table :: PlanOf(table[k])
  }

  // A drain's steps on one entry.

  lemma {:induction false} EntryBeginStep(node: Node, h: Host, a: Answers, key: Key, rest: seq<Key>, cmd: Command)
    requires ValidProvider(node.site.provider) && h.pc == DeleteBegin(key, OfDrain(key, rest, cmd))
    ensures var (h', reply) := Transact(node, h, BeginDelete(key), a);
      PluginStep(node, h, a) == h'.(pc :=
        if !reply.Answer? then DrainFailed(cmd, reply.Transport?)
        else if reply.attachment.None? then DrainRemove(key, rest, cmd)
        else DeleteCleanup(reply.attachment.value, OfDrain(key, rest, cmd)))
  {
    hide Transact;
  }

  lemma {:induction false} EntryCleanupStep(node: Node, h: Host, a: Answers, record: Record, key: Key, rest: seq<Key>, cmd: Command)
    requires ValidProvider(node.site.provider) && h.pc == DeleteCleanup(record, OfDrain(key, rest, cmd))
    ensures var (h', ok) := Unlink(node, h, record, a);
      PluginStep(node, h, a) == h'.(pc := if ok then DeleteComplete(record.spec.key, OfDrain(key, rest, cmd)) else DrainFailed(cmd, false))
  {
    hide Unlink;
  }

  lemma {:induction false} EntryCompleteStep(node: Node, h: Host, a: Answers, key: Key, rest: seq<Key>, cmd: Command)
    requires ValidProvider(node.site.provider) && h.pc == DeleteComplete(key, OfDrain(key, rest, cmd))
    ensures var (h', reply) := Transact(node, h, CompleteDelete(key), a);
      PluginStep(node, h, a) == h'.(pc := if reply.Answer? then DrainRemove(key, rest, cmd) else DrainFailed(cmd, reply.Transport?))
  {
    hide Transact;
  }

  lemma {:induction false} EntryRemoveStep(node: Node, h: Host, key: Key, rest: seq<Key>, cmd: Command)
    requires ValidProvider(node.site.provider) && h.pc == DrainRemove(key, rest, cmd)
    ensures PluginStep(node, h, CALM) == DrainNext(h.(queue := h.queue - {key}), rest, cmd)
    ensures forall pc :: DrainNext(h.(queue := h.queue - {key}), rest, cmd) == DrainNext(h.(queue := h.queue - {key}, pc := pc), rest, cmd)
  {
  }

  /** The pair and the record of an entry whose delete has begun. */
  method FinishEntry(node: Node, journal: AttachmentJournal, record: Record, links: set<Plan>, call: nat, nextId: nat,
                     ghost h: Host, ghost rest: seq<Key>, ghost cmd: Command)
    returns (ok: bool, alive: set<Plan>, steps: nat, next: nat)
    requires ValidProvider(node.site.provider) && journal.site == node.site
    requires journal.View().Serving() && journal.revision + 1 <= U64_MAX && ValidKey(record.spec.key)
    requires record.spec.key in journal.table && journal.table[record.spec.key].phase == Deleting
    requires var now := Drive(node, h, Calm, Calm, call); now == HostOf(now, journal, nextId, links, DeleteCleanup(record, OfDrain(record.spec.key, rest, cmd)))
    modifies journal
    ensures journal.View().Serving() && journal.revision <= old(journal.revision) + 1
    ensures ok <==> node.buildable(PlanOf(record))
    ensures ok ==> journal.table == old(journal.table) - {record.spec.key} && alive == links - {PlanOf(record)}
    ensures !ok ==> alive == links && journal.table == old(journal.table)
    ensures Drive(node, h, Calm, Calm, steps) ==
      HostOf(Drive(node, h, Calm, Calm, call), journal, next, alive, if ok then DrainRemove(record.spec.key, rest, cmd) else DrainFailed(cmd, false))
  {
    hide ValidKey, Apply, Transact, PluginStep, Unlink, Drive, PlanOf;
    var key := record.spec.key;
    ghost var now := Drive(node, h, Calm, Calm, call);
    steps, next := call + 1, nextId;
    ok, alive := SendUnlink(node, record, links, CALM, now);
    EntryCleanupStep(node, now, CALM, record, key, rest, cmd);
    DriveOn(node, h, Calm, Calm, call);
    now := PluginStep(node, now, CALM);
    if !ok { return; }
    HealthyComplete(journal.site, journal.View(), journal.file, CompleteDelete(key), CALM, next);
    var completed; completed, next := Send(node, journal, CompleteDelete(key), CALM, next, now);
    EntryCompleteStep(node, now, CALM, key, rest, cmd);
    DriveOn(node, h, Calm, Calm, steps);
    steps := steps + 1;
  }

  /** What a begun delete says about its entry. */
  lemma {:induction false} EntryFacts(node: Node, table: Table, key: Key)
    requires ValidKey(key) && (key in table ==> table[key].phase != Aborting)
    ensures Drainable(node, table, key) <==> (key in table ==> node.buildable(PlanOf(table[key].(phase := Deleting))))
    ensures PlansOf(table, [key]) == if key in table then {PlanOf(table[key].(phase := Deleting))} else {}
  {
    hide ValidKey;
  }

  /** Deletes one queued entry with an agent and a kernel that never fail: the plugin steps
      of a drain from number `call` on, up to the removal of the entry or the drain's failure. */
  method DrainEntry(node: Node, journal: AttachmentJournal, key: Key, links: set<Plan>, call: nat, nextId: nat,
                    ghost h: Host, ghost rest: seq<Key>, ghost cmd: Command)
    returns (ok: bool, alive: set<Plan>, steps: nat, next: nat)
    requires ValidProvider(node.site.provider) && journal.site == node.site && Keyed(journal.table)
    requires journal.View().Serving() && journal.revision + 2 <= U64_MAX
    requires var now := Drive(node, h, Calm, Calm, call); now == HostOf(now, journal, nextId, links, DeleteBegin(key, OfDrain(key, rest, cmd)))
    modifies journal
    ensures journal.View().Serving() && journal.revision <= old(journal.revision) + 2
    ensures ok <==> Drainable(node, old(journal.table), key)
    ensures ok ==> journal.table == old(journal.table) - {key} && alive == links - PlansOf(old(journal.table), [key])
    ensures !ok ==> alive == links && forall k :: k != key ==> Lookup(journal.table, k) == old(Lookup(journal.table, k))
    ensures Drive(node, h, Calm, Calm, steps) ==
      HostOf(Drive(node, h, Calm, Calm, call), journal, next, alive, if ok then DrainRemove(key, rest, cmd) else DrainFailed(cmd, false))
  {
    hide ValidKey, Apply, Transact, PluginStep, Drive, PlanOf, PlansOf;
    ghost var table, now := journal.table, Drive(node, h, Calm, Calm, call);
    ok, alive, steps := false, links, call + 1;
    HealthyBegin(journal.site, journal.View(), journal.file, key, CALM, nextId);
    var begun; begun, next := Send(node, journal, BeginDelete(key), CALM, nextId, now);
    EntryBeginStep(node, now, CALM, key, rest, cmd);
    DriveOn(node, h, Calm, Calm, call);
    if !begun.Answer? { return; }
    EntryFacts(node, table, key);
    if begun.attachment.None? { return true, links, steps, next; }
    ok, alive, steps, next := FinishEntry(node, journal, begun.attachment.value, links, steps, next, h, rest, cmd);
    assert ok ==> journal.table == table - {key};
  }

  lemma {:induction false} PlansJoin(table: Table, done: seq<Key>, key: Key)
    requires key !in done
    ensures PlansOf(table, done) + PlansOf(table - Elements(done), [key]) == PlansOf(table, done + [key])
    ensures Elements(done + [key]) == Elements(done) + {key}
  {
  }

  /** The first listed entry: deleted and taken off the queue, or the drain has failed. */
  method DrainFirst(node: Node, journal: AttachmentJournal, pending: seq<Key>, queue: map<Key, nat>, links: set<Plan>, call: nat, nextId: nat,
                    ghost h: Host, ghost now: Host, ghost cmd: Command)
    returns (ok: bool, left: map<Key, nat>, alive: set<Plan>, steps: nat, next: nat)
    requires ValidProvider(node.site.provider) && journal.site == node.site && Keyed(journal.table) && pending != []
    requires journal.View().Serving() && journal.revision + 2 <= U64_MAX
    requires now == HostOf(now, journal, nextId, links, now.pc) && now.queue == queue
    requires Drive(node, h, Calm, Calm, call) == DrainNext(now, pending, cmd)
    modifies journal
    ensures journal.View().Serving() && journal.revision <= old(journal.revision) + 2
    ensures ok <==> Drainable(node, old(journal.table), pending[0])
    ensures ok ==> journal.table == old(journal.table) - {pending[0]} && alive == links - PlansOf(old(journal.table), [pending[0]])
    ensures !ok ==> alive == links && forall k :: k != pending[0] ==> Lookup(journal.table, k) == old(Lookup(journal.table, k))
    ensures left == if ok then queue - {pending[0]} else queue
    ensures Drive(node, h, Calm, Calm, steps) ==
      if ok then DrainNext(HostOf(now, journal, next, alive, now.pc).(queue := left), pending[1..], cmd)
      else HostOf(now, journal, next, alive, DrainFailed(cmd, false))
  {
    hide PluginStep, Drainable, PlansOf, StartLifecycle;
    ok, alive, steps, next := DrainEntry(node, journal, pending[0], links, call, nextId, h, pending[1..], cmd);
    left := queue;
    if !ok { return; }
    EntryRemoveStep(node, Drive(node, h, Calm, Calm, steps), pending[0], pending[1..], cmd);
    steps := steps + 1;
    left := left - {pending[0]};
  }

  /** Drains the listed entries with an agent and a kernel that never fail. It succeeds exactly
      when every entry is drainable; otherwise it stops at the first that is not, having removed
      exactly the entries before it. The plugin steps of the drain lead to the same queue, links
      and journal, and on success to the start of the command's own lifecycle. */
  method DrainDeferredDeletes(node: Node, journal: AttachmentJournal, pending: seq<Key>, queue: map<Key, nat>, links: set<Plan>,
                              nextId: nat, ghost h: Host, ghost cmd: Command)
    returns (ok: bool, left: map<Key, nat>, alive: set<Plan>, done: nat, steps: nat, next: nat)
    requires ValidProvider(node.site.provider) && journal.site == node.site && Keyed(journal.table)
    requires journal.View().Serving() && journal.revision + 2 * |pending| <= U64_MAX
    requires forall i, j :: 0 <= i < j < |pending| ==> pending[i] != pending[j]
    requires h == HostOf(h, journal, nextId, links, h.pc) && h.queue == queue
    modifies journal
    ensures done <= |pending| && (ok <==> done == |pending|)
    ensures forall i :: 0 <= i < done ==> Drainable(node, old(journal.table), pending[i])
    ensures !ok ==> !Drainable(node, old(journal.table), pending[done])
    ensures left == queue - Elements(pending[..done])
    ensures alive == links - PlansOf(old(journal.table), pending[..done])
    ensures forall k :: k !in pending[..done] && (ok || k != pending[done]) ==>
      Lookup(journal.table, k) == old(Lookup(journal.table, k))
    ensures forall k :: k in pending[..done] ==> k !in journal.table
    ensures var reached := HostOf(h, journal, next, alive, h.pc).(queue := left);
      Drive(node, DrainNext(h, pending, cmd), Calm, Calm, steps) == if ok then StartLifecycle(reached, cmd) else reached.(pc := DrainFailed(cmd, false))
  {
    hide Drainable, PlansOf, PlanOf, PluginStep, DrainNext, StartLifecycle;
    ok, left, alive, done, steps, next := true, queue, links, 0, 0, nextId;
    ghost var table, start := journal.table, DrainNext(h, pending, cmd);
    assert PlansOf(table, pending[..0]) == {} by { NoPlans(table, pending[..0]); }
    assert pending[0..] == pending;
    assert Drive(node, start, Calm, Calm, 0) == start;
    hide Drive;
    while done < |pending|
      invariant done <= |pending| && journal.View().Serving() && ok
      invariant journal.revision + 2 * (|pending| - done) <= U64_MAX
      invariant forall i :: 0 <= i < done ==> Drainable(node, table, pending[i])
      invariant left == queue - Elements(pending[..done])
      invariant alive == links - PlansOf(table, pending[..done])
      invariant journal.table == table - Elements(pending[..done])
      invariant Drive(node, start, Calm, Calm, steps) == DrainNext(HostOf(h, journal, next, alive, h.pc).(queue := left), pending[done..], cmd)
    {
      var key := pending[done];
      assert key !in pending[..done];
      assert pending[done..][0] == key && pending[done..][1..] == pending[done + 1..];
      assert pending[..done + 1] == pending[..done] + [key];
      PlansJoin(table, pending[..done], key);
      DrainedAre(node, table, pending[..done], key);
      ghost var now := HostOf(h, journal, next, alive, h.pc).(queue := left);
      ok, left, alive, steps, next := DrainFirst(node, journal, pending[done..], left, alive, steps, next, start, now, cmd);
      if !ok { return; }
      done := done + 1;
    }
    assert pending[..done] == pending && pending[done..] == [];
    Drained(HostOf(h, journal, next, alive, h.pc).(queue := left), cmd);
  }

  /** Earlier entries are gone and leave a later one as drainable as it was. */
  lemma {:induction false} DrainedAre(node: Node, table: Table, done: seq<Key>, key: Key)
    requires key !in done
    ensures Drainable(node, table - Elements(done), key) <==> Drainable(node, table, key)
    ensures forall k :: k in done ==> Lookup(table - Elements(done), k) == None
    ensures forall k :: k !in done ==> Lookup(table - Elements(done), k) == Lookup(table, k)
  {
    hide ValidKey;
  }

  lemma {:induction false} Drained(h: Host, cmd: Command)
    ensures DrainNext(h, [], cmd) == StartLifecycle(h, cmd)
  {
  }

  lemma {:induction false} NoPlans(table: Table, none: seq<Key>)
    requires none == []
    ensures PlansOf(table, none) == {}
  {
  }

  /** The plugin queues deletes the journal will always reject: such an entry never drains. */
  lemma {:induction false} QueueAcceptsUndrainableKey(node: Node, table: Table)
    ensures var key := Key("net", "pod", "_eth0");
      Accepted(Del(key)) && !ValidKey(key) && !Drainable(node, table, key)
  {
    var key := Key("net", "pod", "_eth0");
    assert !Alphanumeric(key.ifname[0]);
    assert forall i :: 0 <= i < 5 ==> Alphanumeric("_eth0"[i]) || "_eth0"[i] in {'_', '.', '-'};
  }
}
