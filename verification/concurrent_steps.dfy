/** One step of one command among others: what it leaves alone outside its own attachment,
    and why no other command that counts on that attachment can be running. */
module ConcurrentSteps {
  import opened Results
  import opened Orders
  import opened Attachments
  import opened JournalModel
  import opened Lifecycle
  import opened LifecycleSafety
  import opened DeferredDeletes
  import opened ConcurrentCommands

  /** The attachment a place works on. */
  function HandKey(pc: Pc): Option<Key> {
    match pc
    case Idle(_) => None
    case DrainList(_) => None
    case DeleteBegin(key, _) => Some(key)
    case DeleteCleanup(record, _) => Some(record.spec.key)
    case DeleteComplete(key, _) => Some(key)
    case DrainRemove(key, _, _) => Some(key)
    case Enqueue(key, _) => Some(key)
    case AddInspect(spec) => Some(spec.key)
    case AddVerify(record) => Some(record.spec.key)
    case AddRecover(spec, _) => Some(spec.key)
    case AddRecoverComplete(spec) => Some(spec.key)
    case AddPrepare(spec) => Some(spec.key)
    case AddLink(record) => Some(record.spec.key)
    case AddRoutes(record) => Some(record.spec.key)
    case AddCommit(record) => Some(record.spec.key)
    case AbortBegin(record, _) => Some(record.spec.key)
    case AbortUnlink(record) => Some(record.spec.key)
    case AbortComplete(key) => Some(key)
    case CollectList(_, _, _, _) => None
    case CollectRecord(_) => None
    case CollectAborting(record, _) => Some(record.spec.key)
    case CollectAborted(key, _) => Some(key)
  }

  predicate Drains(pc: Pc) { Locked(pc).Some? }

  predicate Collects(pc: Pc) {
    pc.CollectList? || pc.CollectRecord? || pc.CollectAborting? || pc.CollectAborted?
    || ((pc.DeleteBegin? || pc.DeleteCleanup? || pc.DeleteComplete?) && pc.caller.OfCollector?)
  }

  /** The entries a drain has still to take off the queue. */
  predicate Remaining(queue: map<Key, nat>, key: Key, rest: seq<Key>, cmd: Command) {
    && key in queue && key.network == NetworkOf(cmd) && key !in rest
    && (forall i :: 0 <= i < |rest| ==> rest[i] in queue && rest[i].network == NetworkOf(cmd))
    && (forall i, j :: 0 <= i < j < |rest| ==> rest[i] != rest[j])
  }

  /** A command's own lifecycle: its container's key, which is not queued. */
  predicate OwnLifecycle(queue: map<Key, nat>, slot: Slot, key: Key) {
    slot == Container(key.containerId) && key !in queue
  }

  predicate CallerPlaced(queue: map<Key, nat>, slot: Slot, key: Key, caller: Caller) {
    match caller
    case OfCommand(_) => OwnLifecycle(queue, slot, key)
    case OfDrain(k, rest, cmd) => k == key && Suits(slot, cmd) && Remaining(queue, key, rest, cmd)
    case OfCollector(_) => slot.Collector?
  }

  /** Where a slot's command may stand, and what the queue then says about its key. */
  predicate Placed(queue: map<Key, nat>, slot: Slot, pc: Pc) {
    match pc
    case Idle(_) => true
    case DrainList(cmd) => Suits(slot, cmd)
    case DeleteBegin(key, caller) => CallerPlaced(queue, slot, key, caller)
    case DeleteCleanup(record, caller) => CallerPlaced(queue, slot, record.spec.key, caller)
    case DeleteComplete(key, caller) => CallerPlaced(queue, slot, key, caller)
    case DrainRemove(key, rest, cmd) => Suits(slot, cmd) && Remaining(queue, key, rest, cmd)
    case Enqueue(key, _) => slot == Container(key.containerId)
    case CollectList(_, _, _, _) => slot.Collector?
    case CollectRecord(_) => slot.Collector?
    case CollectAborting(_, _) => slot.Collector?
    case CollectAborted(_, _) => slot.Collector?
    case _ => OwnLifecycle(queue, slot, HandKey(pc).value)
  }

  /** Outside `key` links, records and their durability are as before. */
  ghost predicate Elsewhere(h: Host, h': Host, key: Option<Key>) {
    && (forall l :: l in h.links && Some(l.spec.key) != key ==> l in h'.links)
    && (forall r :: Held(h, r) && Some(r.spec.key) != key ==> Held(h', r))
  }

  /** Links only disappear, but for the pair an ADD creates. */
  ghost predicate FewerLinks(h: Host, h': Host) {
    forall l :: l in h'.links ==> l in h.links || (h.pc.AddLink? && Some(l.spec.key) == HandKey(h.pc))
  }

  lemma {:induction false} TransactElsewhere(node: Node, h: Host, op: Operation, a: Answers)
    requires ValidProvider(node.site.provider) && Runs.Inv(node.site, h.agent)
    ensures Elsewhere(h, Transact(node, h, op, a).0, MutationKey(op)) && FewerLinks(h, Transact(node, h, op, a).0)
  {
    hide Apply, ValidTable, LegalMove, Runs.PlannedMove, MutationKey;
    TransactFrame(node, h, op, a);
    var h' := Transact(node, h, op, a).0;
    if h.agent.open {
      var env := a.env.(newId := h.agent.nextId);
      Runs.ApplyCases(node.site, h.agent.journal, h.agent.disk, CURRENT_SCHEMA, op, env);
      var move := Runs.PlannedMove(node.site, h.agent.journal, CURRENT_SCHEMA, op, env.nonce);
      forall r | Held(h, r) && Some(r.spec.key) != MutationKey(op) ensures Held(h', r) {
        if move.Move? { HeldElsewhere(h, r, move.key, move.next, h'.agent); }
      }
    }
  }

  lemma {:induction false} HeldElsewhere(h: Host, r: Record, key: Key, next: Option<Record>, agent: Runs.World)
    requires Held(h, r) && h.agent.open && key != r.spec.key
    requires var moved := Store(h.agent.journal.table, key, next);
      agent.journal.table in {h.agent.journal.table, moved} && agent.disk.table in {h.agent.disk.table, moved}
    ensures Held(h.(agent := agent), r)
  {
  }

  lemma {:induction false} UnlinkElsewhere(node: Node, h: Host, record: Record, a: Answers)
    ensures Elsewhere(h, Unlink(node, h, record, a).0, Some(record.spec.key)) && FewerLinks(h, Unlink(node, h, record, a).0)
  {
  }

  /** Only the agent and the links matter to these. */
  lemma {:induction false} ElsewhereWithPc(h: Host, h': Host, h'': Host, key: Option<Key>)
    requires Elsewhere(h, h', key) && FewerLinks(h, h') && h''.agent == h'.agent && h''.links == h'.links
    ensures Elsewhere(h, h'', key) && FewerLinks(h, h'')
  {
    forall r | Held(h, r) && Some(r.spec.key) != key ensures Held(h'', r) { assert Held(h', r); }
  }

  lemma {:induction false} SameElsewhere(h: Host, h': Host, key: Option<Key>)
    requires h'.agent == h.agent && h'.links == h.links
    ensures Elsewhere(h, h', key) && FewerLinks(h, h')
  {
  }

  lemma {:induction false} DeleteElsewhere(node: Node, h: Host, a: Answers)
    requires ValidProvider(node.site.provider) && Inv(node, h)
    requires h.pc.DeleteBegin? || h.pc.DeleteCleanup? || h.pc.DeleteComplete?
    ensures var h' := StepDelete(node, h, a); Elsewhere(h, h', HandKey(h.pc)) && FewerLinks(h, h')
  {
    hide Inv, Transact, Unlink, Elsewhere, FewerLinks;
    var h' := StepDelete(node, h, a);
    InvAgent(node, h);
    match h.pc
    case DeleteBegin(key, _) =>
      TransactElsewhere(node, h, BeginDelete(key), a);
      ElsewhereWithPc(h, Transact(node, h, BeginDelete(key), a).0, h', Some(key));
    case DeleteCleanup(record, _) =>
      UnlinkElsewhere(node, h, record, a);
      ElsewhereWithPc(h, Unlink(node, h, record, a).0, h', Some(record.spec.key));
    case DeleteComplete(key, _) =>
      TransactElsewhere(node, h, CompleteDelete(key), a);
      ElsewhereWithPc(h, Transact(node, h, CompleteDelete(key), a).0, h', Some(key));
  }

  lemma {:induction false} InvAgent(node: Node, h: Host)
    requires Inv(node, h)
    ensures Runs.Inv(node.site, h.agent)
  {
  }

  lemma {:induction false} NoKeyElsewhere(h: Host, h': Host, key: Option<Key>)
    requires Elsewhere(h, h', None)
    ensures Elsewhere(h, h', key)
  {
  }

  lemma {:induction false} AddElsewhere(node: Node, h: Host, a: Answers)
    requires ValidProvider(node.site.provider) && Inv(node, h)
    requires h.pc.AddInspect? || h.pc.AddVerify? || h.pc.AddRecover? || h.pc.AddRecoverComplete? || h.pc.AddPrepare?
    ensures var h' := StepAdd(node, h, a); Elsewhere(h, h', HandKey(h.pc)) && FewerLinks(h, h')
  {
    hide Transact, Unlink, Elsewhere, FewerLinks, Runs.Inv, LinksBacked;
    var h' := StepAdd(node, h, a);
    match h.pc
    case AddInspect(spec) =>
      TransactElsewhere(node, h, Inspect(spec.key), a);
      ElsewhereWithPc(h, Transact(node, h, Inspect(spec.key), a).0, h', None);
      NoKeyElsewhere(h, h', Some(spec.key));
    case AddVerify(_) => SameElsewhere(h, h', HandKey(h.pc));
    case AddRecover(spec, record) =>
      UnlinkElsewhere(node, h, record, a);
      ElsewhereWithPc(h, Unlink(node, h, record, a).0, h', Some(record.spec.key));
    case AddRecoverComplete(spec) =>
      TransactElsewhere(node, h, CompleteAbort(spec.key), a);
      ElsewhereWithPc(h, Transact(node, h, CompleteAbort(spec.key), a).0, h', Some(spec.key));
    case AddPrepare(spec) =>
      TransactElsewhere(node, h, Prepare(spec), a);
      ElsewhereWithPc(h, Transact(node, h, Prepare(spec), a).0, h', Some(spec.key));
  }

  lemma {:induction false} FinishElsewhere(node: Node, h: Host, a: Answers)
    requires ValidProvider(node.site.provider) && Inv(node, h)
    requires h.pc.AddLink? || h.pc.AddRoutes? || h.pc.AddCommit? || h.pc.AbortBegin? || h.pc.AbortUnlink? || h.pc.AbortComplete?
    ensures var h' := StepFinish(node, h, a); Elsewhere(h, h', HandKey(h.pc)) && FewerLinks(h, h')
  {
    hide Transact, Unlink, Runs.Inv, LinksBacked, Held;
    var h' := StepFinish(node, h, a);
    match h.pc
    case AddLink(record) => LinkElsewhere(node, h, a);
    case AddRoutes(_) => SameElsewhere(h, h', HandKey(h.pc));
    case AddCommit(record) =>
      TransactElsewhere(node, h, Commit(record.spec.key), a);
      ElsewhereWithPc(h, Transact(node, h, Commit(record.spec.key), a).0, h', HandKey(h.pc));
    case AbortBegin(record, _) =>
      TransactElsewhere(node, h, BeginAbort(record.spec.key), a);
      ElsewhereWithPc(h, Transact(node, h, BeginAbort(record.spec.key), a).0, h', HandKey(h.pc));
    case AbortUnlink(record) =>
      UnlinkElsewhere(node, h, record, a);
      ElsewhereWithPc(h, Unlink(node, h, record, a).0, h', HandKey(h.pc));
    case AbortComplete(key) =>
      TransactElsewhere(node, h, CompleteAbort(key), a);
      ElsewhereWithPc(h, Transact(node, h, CompleteAbort(key), a).0, h', HandKey(h.pc));
  }

  lemma {:induction false} LinkElsewhere(node: Node, h: Host, a: Answers)
    requires ValidProvider(node.site.provider) && h.pc.AddLink?
    ensures var h' := StepFinish(node, h, a); Elsewhere(h, h', HandKey(h.pc)) && FewerLinks(h, h')
  {
    var h' := StepFinish(node, h, a);
    assert h'.agent == h.agent && h.links <= h'.links <= h.links + {PlanOf(h.pc.record)};
    assert PlanOf(h.pc.record).spec == h.pc.record.spec;
  }

  lemma {:induction false} CollectElsewhere(node: Node, h: Host, a: Answers)
    requires ValidProvider(node.site.provider) && Inv(node, h)
    requires h.pc.CollectList? || h.pc.CollectRecord? || h.pc.CollectAborting? || h.pc.CollectAborted?
    ensures var h' := StepCollect(node, h, a); Elsewhere(h, h', HandKey(h.pc)) && FewerLinks(h, h')
  {
    hide Elsewhere, FewerLinks, Inv, StepCollect;
    InvAgent(node, h);
    match h.pc
    case CollectList(_, _, _, _) => CollectListElsewhere(node, h, a);
    case CollectRecord(_) => CollectRecordElsewhere(node, h, a);
    case CollectAborting(_, _) => CollectAbortingElsewhere(node, h, a);
    case CollectAborted(_, _) => CollectAbortedElsewhere(node, h, a);
  }

  lemma {:induction false} CollectRecordElsewhere(node: Node, h: Host, a: Answers)
    requires ValidProvider(node.site.provider) && h.pc.CollectRecord?
    ensures var h' := StepCollect(node, h, a); Elsewhere(h, h', None) && FewerLinks(h, h')
  {
    hide Elsewhere, FewerLinks;
    SameElsewhere(h, StepCollect(node, h, a), None);
  }

  lemma {:induction false} CollectAbortingElsewhere(node: Node, h: Host, a: Answers)
    requires ValidProvider(node.site.provider) && h.pc.CollectAborting?
    ensures var h' := StepCollect(node, h, a); Elsewhere(h, h', HandKey(h.pc)) && FewerLinks(h, h')
  {
    hide Elsewhere, FewerLinks, Unlink;
    UnlinkElsewhere(node, h, h.pc.record, a);
    ElsewhereWithPc(h, Unlink(node, h, h.pc.record, a).0, StepCollect(node, h, a), HandKey(h.pc));
  }

  lemma {:induction false} CollectAbortedElsewhere(node: Node, h: Host, a: Answers)
    requires ValidProvider(node.site.provider) && Runs.Inv(node.site, h.agent) && h.pc.CollectAborted?
    ensures var h' := StepCollect(node, h, a); Elsewhere(h, h', HandKey(h.pc)) && FewerLinks(h, h')
  {
    hide Elsewhere, FewerLinks, Transact, Runs.Inv;
    TransactElsewhere(node, h, CompleteAbort(h.pc.key), a);
    ElsewhereWithPc(h, Transact(node, h, CompleteAbort(h.pc.key), a).0, StepCollect(node, h, a), HandKey(h.pc));
  }

  lemma {:induction false} CollectListElsewhere(node: Node, h: Host, a: Answers)
    requires ValidProvider(node.site.provider) && Runs.Inv(node.site, h.agent) && h.pc.CollectList?
    ensures var h' := StepCollect(node, h, a); Elsewhere(h, h', None) && FewerLinks(h, h')
  {
    hide Transact, Elsewhere, FewerLinks, Runs.Inv, Listing, MutationKey;
    var op := List(h.pc.network, h.pc.after, MAX_LIST_RECORDS);
    assert MutationKey(op) == None by { ListMovesNothing(op); }
    TransactElsewhere(node, h, op, a);
    ElsewhereWithPc(h, Transact(node, h, op, a).0, StepCollect(node, h, a), None);
  }

  lemma {:induction false} ListMovesNothing(op: Operation)
    requires op.List?
    ensures MutationKey(op) == None
  {
  }

  /** A step of a command leaves every other attachment's links and records alone. */
  lemma {:induction false} StepElsewhere(node: Node, h: Host, a: Answers)
    requires ValidProvider(node.site.provider) && Inv(node, h)
    ensures var h' := PluginStep(node, h, a); Elsewhere(h, h', HandKey(h.pc)) && FewerLinks(h, h')
  {
    hide Inv, StepDelete, StepAdd, StepFinish, StepCollect, Elsewhere, FewerLinks, SortedKeys, QueuedIn;
    if h.pc.Idle? || h.pc.DrainList? || h.pc.DrainRemove? || h.pc.Enqueue? {
      SameElsewhere(h, PluginStep(node, h, a), HandKey(h.pc));
    } else if h.pc.DeleteBegin? || h.pc.DeleteCleanup? || h.pc.DeleteComplete? {
      DeleteElsewhere(node, h, a);
    } else if h.pc.AddInspect? || h.pc.AddVerify? || h.pc.AddRecover? || h.pc.AddRecoverComplete? || h.pc.AddPrepare? {
      AddElsewhere(node, h, a);
    } else if h.pc.CollectList? || h.pc.CollectRecord? || h.pc.CollectAborting? || h.pc.CollectAborted? {
      CollectElsewhere(node, h, a);
    } else {
      FinishElsewhere(node, h, a);
    }
  }

  /** Places of an ADD's own lifecycle. */
  predicate Adds(pc: Pc) {
    pc.AddInspect? || pc.AddVerify? || pc.AddRecover? || pc.AddRecoverComplete? || pc.AddPrepare?
    || pc.AddLink? || pc.AddRoutes? || pc.AddCommit? || pc.AbortBegin? || pc.AbortUnlink? || pc.AbortComplete?
  }

  /** Places of an ADD that creates a pair or counts on one. */
  predicate Links(pc: Pc) { pc.AddLink? || pc.AddRoutes? || pc.AddCommit? }

  /** Where one side creates a pair or counts on one, the other works on another attachment. */
  predicate Apart(pc: Pc, other: Pc) {
    && (pc.AddLink? ==> !Collects(other) && HandKey(other) != HandKey(pc))
    && (Links(other) ==> HandKey(other) != HandKey(pc))
  }

  /** A garbage collection runs beside no ADD and no DEL. */
  predicate Exclusive(slot: Slot, pc: Pc, slot': Slot, pc': Pc) {
    (slot.Collector? ==> !Mutating(pc')) && (slot'.Collector? ==> !Mutating(pc))
  }

  lemma {:induction false} PlacedAreApart(queue: map<Key, nat>, slot: Slot, pc: Pc, slot': Slot, pc': Pc)
    requires slot != slot' && Placed(queue, slot, pc) && Placed(queue, slot', pc') && Exclusive(slot, pc, slot', pc')
    ensures Apart(pc, pc')
  {
    if pc.AddLink? { AddIsAlone(queue, slot, pc, slot', pc'); }
    if Links(pc') { AddIsAlone(queue, slot', pc', slot, pc); }
  }

  lemma {:induction false} AddIsAlone(queue: map<Key, nat>, slot: Slot, pc: Pc, slot': Slot, pc': Pc)
    requires slot != slot' && Placed(queue, slot, pc) && Placed(queue, slot', pc') && Adds(pc)
    requires Exclusive(slot, pc, slot', pc')
    ensures !Collects(pc') && HandKey(pc') != HandKey(pc)
  {
  }

  lemma {:induction false} OthersSafe(h: Host, h': Host, other: Pc)
    requires PcSafe(h.(pc := other)) && Apart(h.pc, other)
    requires Elsewhere(h, h', HandKey(h.pc)) && FewerLinks(h, h')
    ensures PcSafe(h'.(pc := other))
  {
    hide Elsewhere, FewerLinks, HandKey, Held, OnlyPlan, NoLink;
    var before, after := h.(pc := other), h'.(pc := other);
    if Links(other) {
      LinkerKeeps(h, h', other);
    } else {
      forall r | OnlyPlan(before, r) && (h.pc.AddLink? ==> HandKey(h.pc) != Some(r.spec.key)) ensures OnlyPlan(after, r) {
        OnlyPlanKept(h, h', other, r);
      }
      forall k | NoLink(before, k) && (h.pc.AddLink? ==> HandKey(h.pc) != Some(k)) ensures NoLink(after, k) {
        NoLinkKept(h, h', other, k);
      }
      OtherHand(h, other);
    }
  }

  /** The records and keys a place relies on lie under its own key, but for a collector's page. */
  lemma {:induction false} OtherHand(h: Host, other: Pc)
    requires PcSafe(h.(pc := other)) && Apart(h.pc, other) && !Links(other)
    ensures other.AddRecover? ==> HandKey(other) == Some(other.record.spec.key)
    ensures h.pc.AddLink? ==> !Collects(other) && HandKey(h.pc) != HandKey(other)
    ensures other.DeleteCleanup? || other.AbortBegin? || other.AbortUnlink? || other.CollectAborting? ==> HandKey(other) == Some(other.record.spec.key)
    ensures other.DeleteComplete? || other.AbortComplete? || other.CollectAborted? ==> HandKey(other) == Some(other.key)
    ensures other.AddRecoverComplete? ==> HandKey(other) == Some(other.spec.key)
  {
  }

  lemma {:induction false} OnlyPlanKept(h: Host, h': Host, other: Pc, r: Record)
    requires FewerLinks(h, h') && OnlyPlan(h.(pc := other), r) && (h.pc.AddLink? ==> HandKey(h.pc) != Some(r.spec.key))
    ensures OnlyPlan(h'.(pc := other), r)
  {
  }

  lemma {:induction false} NoLinkKept(h: Host, h': Host, other: Pc, key: Key)
    requires FewerLinks(h, h') && NoLink(h.(pc := other), key) && (h.pc.AddLink? ==> HandKey(h.pc) != Some(key))
    ensures NoLink(h'.(pc := other), key)
  {
  }

  lemma {:induction false} LinkerKeeps(h: Host, h': Host, other: Pc)
    requires PcSafe(h.(pc := other)) && Apart(h.pc, other) && Links(other)
    requires Elsewhere(h, h', HandKey(h.pc))
    ensures PcSafe(h'.(pc := other))
  {
    assert Held(h, other.record);
    assert Held(h', other.record);
    assert PlanOf(other.record).spec == other.record.spec;
  }

  ghost predicate QueueChange(h: Host, h': Host) {
    if h.pc.DrainRemove? then h'.queue == h.queue || h'.queue == h.queue - {h.pc.key}
    else if h.pc.Enqueue? then h'.queue == h.queue || h'.queue == h.queue[h.pc.key := h.clock]
    else h'.queue == h.queue
  }

  lemma {:induction false} OthersPlaced(h: Host, h': Host, slot: Slot, slot': Slot, other: Pc)
    requires slot != slot' && Placed(h.queue, slot, h.pc) && Placed(h.queue, slot', other) && QueueChange(h, h')
    requires Locked(h.pc).Some? ==> Locked(other) != Locked(h.pc)
    ensures Placed(h'.queue, slot', other)
  {
    if h'.queue != h.queue {
      if h.pc.DrainRemove? { RemovalElsewhere(h.queue, h.pc.key, slot', other); }
      if h.pc.Enqueue? { AdditionElsewhere(h.queue, h.pc.key, h.clock, slot', other); }
    }
  }

  lemma {:induction false} RemovalElsewhere(queue: map<Key, nat>, key: Key, slot: Slot, other: Pc)
    requires Placed(queue, slot, other) && Locked(other) != Some(key.network)
    ensures Placed(queue - {key}, slot, other)
  {
  }

  lemma {:induction false} AdditionElsewhere(queue: map<Key, nat>, key: Key, clock: nat, slot: Slot, other: Pc)
    requires Placed(queue, slot, other) && slot != Container(key.containerId)
    ensures Placed(queue[key := clock], slot, other)
  {
  }

  lemma {:induction false} OthersQueued(h: Host, h': Host, other: Pc)
    requires PcQueued(h.(pc := other)) && QueueChange(h, h') && FewerLinks(h, h') && Apart(h.pc, other)
    requires Wanted(h.pc).Some? ==> Locked(other) != Wanted(h.pc)
    ensures PcQueued(h'.(pc := other))
  {
  }

  /** What a step does to its own command's standing. */
  ghost predicate Onward(h: Host, h': Host, slot: Slot) {
    && QueueChange(h, h') && Placed(h'.queue, slot, h'.pc)
    && (Locked(h'.pc).Some? ==> Locked(h'.pc) == Locked(h.pc) || (h.pc.DrainList? && Locked(h'.pc) == Wanted(h.pc)))
    && (Mutating(h'.pc) ==> Mutating(h.pc))
  }

  lemma {:induction false} DrainNextOnward(h: Host, pending: seq<Key>, cmd: Command, slot: Slot)
    requires Suits(slot, cmd)
    requires forall i :: 0 <= i < |pending| ==> pending[i] in h.queue && pending[i].network == NetworkOf(cmd)
    requires forall i, j :: 0 <= i < j < |pending| ==> pending[i] != pending[j]
    requires forall k :: k in h.queue && k.network == NetworkOf(cmd) ==> k in pending
    ensures var h' := DrainNext(h, pending, cmd);
      && Placed(h'.queue, slot, h'.pc) && h'.queue == h.queue
      && (Locked(h'.pc).Some? ==> Locked(h'.pc) == Some(NetworkOf(cmd)))
      && (Mutating(h'.pc) ==> Mutates(cmd))
  {
    if pending != [] {
      var key, rest := pending[0], pending[1..];
      assert Remaining(h.queue, key, rest, cmd);
    }
  }

  lemma {:induction false} DrainListOnward(h: Host, a: Answers, slot: Slot)
    requires h.pc.DrainList? && Placed(h.queue, slot, h.pc)
    ensures Onward(h, StepDrain(h, a), slot)
  {
    hide DrainNext, SortedKeys;
    var cmd := h.pc.cmd;
    if !a.fails {
      var pending := SortedKeys(QueuedIn(h, NetworkOf(cmd)));
      KeysDiffer(pending);
      DrainNextOnward(h, pending, cmd, slot);
    }
  }

  lemma {:induction false} KeysDiffer(keys: seq<Key>)
    requires Ascending(keys, KeyLess)
    ensures forall i, j :: 0 <= i < j < |keys| ==> keys[i] != keys[j]
  {
    hide KeyLess;
    KeyOrder();
  }

  lemma {:induction false} DrainRemoveOnward(h: Host, a: Answers, slot: Slot)
    requires h.pc.DrainRemove? && Placed(h.queue, slot, h.pc) && PcQueued(h)
    ensures Onward(h, StepDrain(h, a), slot)
  {
    hide DrainNext;
    if !a.fails {
      var removed := h.(queue := h.queue - {h.pc.key});
      DrainNextOnward(removed, h.pc.rest, h.pc.cmd, slot);
    }
  }

  lemma {:induction false} EnqueueOnward(h: Host, a: Answers, slot: Slot)
    requires h.pc.Enqueue? && Placed(h.queue, slot, h.pc)
    ensures Onward(h, StepDrain(h, a), slot)
  {
    hide QueuedIn;
  }

  predicate Deletes(pc: Pc) { pc.DeleteBegin? || pc.DeleteCleanup? || pc.DeleteComplete? }

  /** The next step of the same delete, or back to its caller. */
  ghost predicate SameDelete(pc: Pc, pc': Pc)
    requires Deletes(pc)
  {
    || (Deletes(pc') && pc'.caller == pc.caller && HandKey(pc') == HandKey(pc))
    || (exists ok, transport :: pc' == DeleteReturns(pc.caller, ok, transport))
  }

  lemma {:induction false} DeleteMoves(node: Node, h: Host, a: Answers)
    requires ValidProvider(node.site.provider) && Inv(node, h) && Deletes(h.pc)
    ensures var h' := StepDelete(node, h, a); h'.queue == h.queue && SameDelete(h.pc, h'.pc)
  {
    hide Transact, Runs.Inv, LinksBacked, PageSafe, DeleteReturns;
    match h.pc
    case DeleteBegin(key, caller) =>
      TransactFrame(node, h, BeginDelete(key), a);
      BeginDeleteReply(node, h, key, a);
      KeyOfRecord(node, h, key);
    case DeleteCleanup(record, caller) =>
    case DeleteComplete(key, caller) => TransactFrame(node, h, CompleteDelete(key), a);
  }

  lemma {:induction false} DeleteOnward(node: Node, h: Host, a: Answers, slot: Slot)
    requires ValidProvider(node.site.provider) && Inv(node, h) && PcQueued(h) && Placed(h.queue, slot, h.pc) && Deletes(h.pc)
    ensures Onward(h, StepDelete(node, h, a), slot)
  {
    hide Inv, StepDelete, Remaining;
    DeleteMoves(node, h, a);
  }

  /** A prepared record stands under the key it was asked for. */
  lemma {:induction false} PrepareKey(node: Node, h: Host, spec: Spec, a: Answers)
    requires ValidProvider(node.site.provider) && Runs.Inv(node.site, h.agent)
    ensures var reply := Transact(node, h, Prepare(spec), a).1;
      reply.Answer? && reply.attachment.Some? ==> reply.attachment.value.spec.key == spec.key
  {
    hide Allocate, ValidSpec, LegacyBlocked, Runs.Inv;
    KeyOfRecord(node, h, spec.key);
  }

  lemma {:induction false} SameAddOnward(h: Host, h': Host, slot: Slot)
    requires Adds(h.pc) && Placed(h.queue, slot, h.pc) && h'.queue == h.queue
    requires h'.pc.Idle? || (Adds(h'.pc) && HandKey(h'.pc) == HandKey(h.pc))
    ensures Onward(h, h', slot)
  {
  }

  lemma {:induction false} AddOnward(node: Node, h: Host, a: Answers, slot: Slot)
    requires ValidProvider(node.site.provider) && Inv(node, h) && Placed(h.queue, slot, h.pc)
    requires h.pc.AddInspect? || h.pc.AddVerify? || h.pc.AddRecover? || h.pc.AddRecoverComplete? || h.pc.AddPrepare?
    ensures Onward(h, StepAdd(node, h, a), slot)
  {
    hide Transact, Runs.Inv, LinksBacked, Onward, Placed;
    match h.pc {
      case AddInspect(spec) =>
        TransactFrame(node, h, Inspect(spec.key), a);
        InspectReply(node, h, spec.key, a);
        KeyOfRecord(node, h, spec.key);
      case AddVerify(_) =>
      case AddRecover(_, _) =>
      case AddRecoverComplete(spec) => TransactFrame(node, h, CompleteAbort(spec.key), a);
      case AddPrepare(spec) =>
        TransactFrame(node, h, Prepare(spec), a);
        PrepareKey(node, h, spec, a);
    }
    SameAddOnward(h, StepAdd(node, h, a), slot);
  }

  lemma {:induction false} FinishOnward(node: Node, h: Host, a: Answers, slot: Slot)
    requires ValidProvider(node.site.provider) && Placed(h.queue, slot, h.pc)
    requires h.pc.AddLink? || h.pc.AddRoutes? || h.pc.AddCommit? || h.pc.AbortBegin? || h.pc.AbortUnlink? || h.pc.AbortComplete?
    ensures Onward(h, StepFinish(node, h, a), slot)
  {
    hide Transact, Onward, Placed;
    match h.pc {
      case AddCommit(record) => TransactFrame(node, h, Commit(record.spec.key), a);
      case AbortBegin(record, _) => TransactFrame(node, h, BeginAbort(record.spec.key), a);
      case AbortComplete(key) => TransactFrame(node, h, CompleteAbort(key), a);
      case AddLink(_) =>
      case AddRoutes(_) =>
      case AbortUnlink(_) =>
    }
    SameAddOnward(h, StepFinish(node, h, a), slot);
  }

  lemma {:induction false} SameCollectionOnward(h: Host, h': Host, slot: Slot)
    requires Collects(h.pc) && Placed(h.queue, slot, h.pc) && h'.queue == h.queue && (h'.pc.Idle? || Collects(h'.pc))
    ensures Onward(h, h', slot)
  {
  }

  lemma {:induction false} CollectOnward(node: Node, h: Host, a: Answers, slot: Slot)
    requires ValidProvider(node.site.provider) && Placed(h.queue, slot, h.pc)
    requires h.pc.CollectList? || h.pc.CollectRecord? || h.pc.CollectAborting? || h.pc.CollectAborted?
    ensures Onward(h, StepCollect(node, h, a), slot)
  {
    hide Transact, Listing, Onward, Placed;
    match h.pc {
      case CollectList(network, _, after, _) => TransactFrame(node, h, List(network, after, MAX_LIST_RECORDS), a);
      case CollectAborted(key, _) => TransactFrame(node, h, CompleteAbort(key), a);
      case CollectRecord(_) =>
      case CollectAborting(_, _) =>
    }
    SameCollectionOnward(h, StepCollect(node, h, a), slot);
  }

  lemma {:induction false} StepOnward(node: Node, h: Host, a: Answers, slot: Slot)
    requires ValidProvider(node.site.provider) && Inv(node, h) && PcQueued(h) && Placed(h.queue, slot, h.pc)
    ensures Onward(h, PluginStep(node, h, a), slot)
  {
    hide Inv, PcQueued, Placed, Onward, StepDrain, StepDelete, StepAdd, StepFinish, StepCollect;
    if h.pc.Idle? {
      IdleOnward(h, slot);
    } else if h.pc.DrainList? {
      DrainListOnward(h, a, slot);
    } else if h.pc.DrainRemove? {
      DrainRemoveOnward(h, a, slot);
    } else if h.pc.Enqueue? {
      EnqueueOnward(h, a, slot);
    } else if h.pc.DeleteBegin? || h.pc.DeleteCleanup? || h.pc.DeleteComplete? {
      DeleteOnward(node, h, a, slot);
    } else if h.pc.AddInspect? || h.pc.AddVerify? || h.pc.AddRecover? || h.pc.AddRecoverComplete? || h.pc.AddPrepare? {
      AddOnward(node, h, a, slot);
    } else if h.pc.CollectList? || h.pc.CollectRecord? || h.pc.CollectAborting? || h.pc.CollectAborted? {
      CollectOnward(node, h, a, slot);
    } else {
      FinishOnward(node, h, a, slot);
    }
  }

  lemma {:induction false} IdleOnward(h: Host, slot: Slot)
    requires h.pc.Idle?
    ensures Onward(h, h, slot)
  {
  }
}
