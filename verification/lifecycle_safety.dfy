/** Safety of every serialized run of ADD, DEL, CHECK and GC: no live link without a durable
    owner, no address on two links, and no deferred delete overtaking an ADD. */
module LifecycleSafety {
  import opened Results
  import opened Attachments
  import opened JournalModel
  import JournalDocument
  import opened Lifecycle

  /** A live pair is recorded, with its own plan, in the file and in a running agent. */
  ghost predicate Backed(node: Node, h: Host, l: Plan) {
    && node.buildable(l)
    && l.spec.key in h.agent.disk.table && PlanOf(h.agent.disk.table[l.spec.key]) == l
    && (h.agent.open ==> l.spec.key in h.agent.journal.table && PlanOf(h.agent.journal.table[l.spec.key]) == l)
  }

  ghost predicate LinksBacked(node: Node, h: Host) {
    forall l :: l in h.links ==> Backed(node, h, l)
  }

  /** The record is the durable and the remembered owner of its key. */
  ghost predicate Held(h: Host, record: Record) {
    && record.spec.key in h.agent.disk.table && PlanOf(h.agent.disk.table[record.spec.key]) == PlanOf(record)
    && (h.agent.open ==>
          record.spec.key in h.agent.journal.table && PlanOf(h.agent.journal.table[record.spec.key]) == PlanOf(record))
  }

  /** Only the record's own pair can be alive under its key. */
  ghost predicate OnlyPlan(h: Host, record: Record) {
    forall l :: l in h.links && l.spec.key == record.spec.key ==> l == PlanOf(record)
  }

  ghost predicate NoLink(h: Host, key: Key) {
    forall l :: l in h.links ==> l.spec.key != key
  }

  ghost predicate PageSafe(h: Host, page: Page) {
    forall i :: 0 <= i < |page.rest| ==> OnlyPlan(h, page.rest[i])
  }

  ghost predicate CallerSafe(h: Host, caller: Caller) {
    caller.OfCollector? ==> PageSafe(h, caller.page)
  }

  ghost predicate PcSafe(h: Host) {
    match h.pc
    case DeleteBegin(_, caller) => CallerSafe(h, caller)
    case DeleteCleanup(record, caller) => OnlyPlan(h, record) && CallerSafe(h, caller)
    case DeleteComplete(key, caller) => NoLink(h, key) && CallerSafe(h, caller)
    case AddRecover(spec, record) => OnlyPlan(h, record) && record.spec.key == spec.key
    case AddRecoverComplete(spec) => NoLink(h, spec.key)
    case AddLink(record) => Held(h, record)
    case AddRoutes(record) => Held(h, record) && PlanOf(record) in h.links
    case AddCommit(record) => Held(h, record) && PlanOf(record) in h.links
    case AbortBegin(record, unlink) => OnlyPlan(h, record) && (!unlink ==> NoLink(h, record.spec.key))
    case AbortUnlink(record) => OnlyPlan(h, record)
    case AbortComplete(key) => NoLink(h, key)
    case CollectRecord(page) => PageSafe(h, page)
    case CollectAborting(record, page) => OnlyPlan(h, record) && PageSafe(h, page)
    case CollectAborted(key, page) => NoLink(h, key) && PageSafe(h, page)
    case _ => true
  }

  ghost predicate Inv(node: Node, h: Host) {
    Runs.Inv(node.site, h.agent) && LinksBacked(node, h) && PcSafe(h)
  }

  /** The operations that drop a record, and the key they drop. */
  predicate Drops(op: Operation, key: Key) {
    op == CompleteAbort(key) || op == CompleteDelete(key)
  }

  /** A record that has not begun to leave is on disk with the same plan. */
  lemma {:induction false} StayingRecordIsDurable(node: Node, h: Host, key: Key)
    requires Runs.Inv(node.site, h.agent) && key in h.agent.journal.table
    requires h.agent.journal.table[key].phase in {Preparing, Ready}
    ensures key in h.agent.disk.table && PlanOf(h.agent.disk.table[key]) == PlanOf(h.agent.journal.table[key])
  {
    hide ValidTable;
    var table, durable := h.agent.journal.table, h.agent.disk.table;
    if table != durable {
      var moved, next :| durable == Store(table, moved, next) && LegalMove(Lookup(table, moved), next);
    }
  }

  lemma {:induction false} BackedAfterMove(node: Node, h: Host, l: Plan, key: Key, next: Option<Record>, agent: Runs.World)
    requires Backed(node, h, l) && h.agent.open
    requires LegalMove(Lookup(h.agent.journal.table, key), next)
    requires next.None? ==> key != l.spec.key
    requires var moved := Store(h.agent.journal.table, key, next);
      agent.journal.table in {h.agent.journal.table, moved} && agent.disk.table in {h.agent.disk.table, moved}
    ensures Backed(node, h.(agent := agent), l)
  {
  }

  /** The move a transaction would make now. */
  function MoveOf(node: Node, h: Host, op: Operation, a: Answers): Runs.Move
    requires ValidProvider(node.site.provider)
  {
    Runs.PlannedMove(node.site, h.agent.journal, CURRENT_SCHEMA, op, a.env.nonce)
  }

  /** A transaction keeps links backed, provided it removes no record whose pair is alive. */
  lemma {:induction false} MoveKeepsLinks(node: Node, h: Host, op: Operation, a: Answers)
    requires ValidProvider(node.site.provider) && Runs.Inv(node.site, h.agent) && LinksBacked(node, h)
    requires h.agent.open && MoveOf(node, h, op, a).Move? && MoveOf(node, h, op, a).next.None? ==> NoLink(h, MoveOf(node, h, op, a).key)
    ensures var h' := Transact(node, h, op, a).0;
      && Runs.Inv(node.site, h'.agent) && LinksBacked(node, h')
      && h' == h.(agent := h'.agent)
      && h'.agent.open == h.agent.open
  {
    hide Apply, ValidTable, LegalMove, Runs.PlannedMove, Backed;
    var h' := Transact(node, h, op, a).0;
    if h.agent.open {
      Runs.NextKeepsInv(node.site, h.agent, Runs.Transact(CURRENT_SCHEMA, op, a.env));
      var env := a.env.(newId := h.agent.nextId);
      Runs.ApplyCases(node.site, h.agent.journal, h.agent.disk, CURRENT_SCHEMA, op, env);
      var move := MoveOf(node, h, op, a);
      forall l | l in h'.links ensures Backed(node, h', l) {
        assert Backed(node, h, l);
        if move.Move? {
          BackedAfterMove(node, h, l, move.key, move.next, h'.agent);
        } else {
          SameTablesBacked(node, h, h', l);
        }
      }
    }
  }

  /** In particular if it completes only the removal of a record whose pair is gone. */
  lemma {:induction false} TransactKeepsLinks(node: Node, h: Host, op: Operation, a: Answers)
    requires ValidProvider(node.site.provider) && Runs.Inv(node.site, h.agent) && LinksBacked(node, h)
    requires forall key :: Drops(op, key) ==> NoLink(h, key)
    ensures var h' := Transact(node, h, op, a).0;
      && Runs.Inv(node.site, h'.agent) && LinksBacked(node, h')
      && h' == h.(agent := h'.agent)
      && h'.agent.open == h.agent.open
  {
    hide Runs.PlannedMove, Drops, Backed, NoLink, Transact, Runs.Inv, LinksBacked;
    RemovalDrops(node, h, op, a.env);
    MoveKeepsLinks(node, h, op, a);
  }

  lemma {:induction false} SameTablesBacked(node: Node, h: Host, h': Host, l: Plan)
    requires Backed(node, h, l) && h'.agent.open == h.agent.open
    requires h'.agent.journal.table == h.agent.journal.table && h'.agent.disk.table == h.agent.disk.table
    ensures Backed(node, h', l)
  {
  }

  lemma {:induction false} RemovalDrops(node: Node, h: Host, op: Operation, env: Env)
    requires ValidProvider(node.site.provider)
    ensures var move := Runs.PlannedMove(node.site, h.agent.journal, CURRENT_SCHEMA, op, env.nonce);
      move.Move? && move.next.None? ==> Drops(op, move.key)
  {
  }

  lemma {:induction false} InspectReply(node: Node, h: Host, key: Key, a: Answers)
    requires ValidProvider(node.site.provider)
    ensures var (h', reply) := Transact(node, h, Inspect(key), a);
      && h'.agent.journal == h.agent.journal && h'.agent.disk == h.agent.disk && h'.agent.open == h.agent.open
      && (reply.Answer? ==> h.agent.open && reply.attachment == Lookup(h.agent.journal.table, key))
  {
  }

  lemma {:induction false} BeginDeleteReply(node: Node, h: Host, key: Key, a: Answers)
    requires ValidProvider(node.site.provider) && Runs.Inv(node.site, h.agent)
    ensures var (h', reply) := Transact(node, h, BeginDelete(key), a);
      reply.Answer? ==>
        && h.agent.open
        && (reply.attachment.None? ==> key !in h.agent.journal.table && h'.agent.journal.table == h.agent.journal.table)
        && (reply.attachment.Some? ==>
              key in h.agent.journal.table && PlanOf(reply.attachment.value) == PlanOf(h.agent.journal.table[key]))
  {
    hide ValidTable, LegacyBlocked;
  }

  lemma {:induction false} CompleteReply(node: Node, h: Host, op: Operation, key: Key, a: Answers)
    requires ValidProvider(node.site.provider) && Drops(op, key)
    ensures var (h', reply) := Transact(node, h, op, a);
      reply.Answer? ==> h'.agent.open && key !in h'.agent.journal.table
  {
    hide ValidTable, LegacyBlocked;
  }

  lemma {:induction false} CommitReply(node: Node, h: Host, key: Key, a: Answers)
    requires ValidProvider(node.site.provider)
    ensures var (h', reply) := Transact(node, h, Commit(key), a);
      reply.Answer? ==>
        && h'.agent.open && key in h.agent.journal.table && reply.attachment == Lookup(h'.agent.journal.table, key)
        && reply.attachment.Some? && reply.attachment.value.phase == Ready
        && PlanOf(reply.attachment.value) == PlanOf(h.agent.journal.table[key])
  {
    hide ValidTable, LegacyBlocked;
  }

  lemma {:induction false} PrepareReply(node: Node, h: Host, spec: Spec, a: Answers)
    requires ValidProvider(node.site.provider) && Runs.Inv(node.site, h.agent)
    ensures var (h', reply) := Transact(node, h, Prepare(spec), a);
      reply.Answer? && reply.attachment.Some? ==> Held(h', reply.attachment.value)
  {
    hide Allocate, ValidSpec, LegacyBlocked;
    var (h', reply) := Transact(node, h, Prepare(spec), a);
    if reply.Answer? && reply.attachment.Some? {
      var table := h.agent.journal.table;
      if spec.key in table {
        assert Runs.Inv(node.site, h.agent) && ValidRecord(node.site, spec.key, table[spec.key]);
        StayingRecordIsDurable(node, h, spec.key);
      }
    }
  }

  lemma {:induction false} ListReply(node: Node, h: Host, network: string, after: Option<Key>, limit: nat, a: Answers)
    requires ValidProvider(node.site.provider) && Runs.Inv(node.site, h.agent)
    ensures var (h', reply) := Transact(node, h, List(network, after, limit), a);
      && h'.agent.journal == h.agent.journal && h'.agent.disk == h.agent.disk && h'.agent.open == h.agent.open
      && (reply.Answer? ==> h.agent.open)
    ensures var page := Listing(h.agent.journal.table, network, after, limit);
      forall i :: 0 <= i < |page| ==>
        page[i].spec.key in h.agent.journal.table && h.agent.journal.table[page[i].spec.key] == page[i]
  {
    hide LegacyBlocked, ValidListing, KeyLess, ValidRecord;
    var table, page := h.agent.journal.table, Listing(h.agent.journal.table, network, after, limit);
    forall i | 0 <= i < |page| ensures page[i].spec.key in table && table[page[i].spec.key] == page[i] {
      ListedRecord(node, table, network, after, limit, i);
    }
  }

  lemma {:induction false} RecordKey(node: Node, key: Key, record: Record)
    requires ValidRecord(node.site, key, record)
    ensures record.spec.key == key
  {
  }

  lemma {:induction false} ListedRecord(node: Node, table: Table, network: string, after: Option<Key>, limit: nat, i: nat)
    requires ValidTable(node.site, table) && i < |Listing(table, network, after, limit)|
    ensures var r := Listing(table, network, after, limit)[i];
      r.spec.key in table && table[r.spec.key] == r && r.spec.key.network == network && (after.None? || KeyLess(after.value, r.spec.key))
  {
    hide KeyLess, ValidRecord, DistinctLeases;
    var past := set k | k in table && k.network == network && (after.None? || KeyLess(after.value, k));
    var key := SortedKeys(past)[i];
    assert key in past && ValidRecord(node.site, key, table[key]);
    RecordKey(node, key, table[key]);
  }

  /** A remembered record's plan is the only one alive under its key. */
  lemma {:induction false} RememberedIsOnly(node: Node, h: Host, key: Key)
    requires LinksBacked(node, h) && h.agent.open
    ensures key !in h.agent.journal.table ==> NoLink(h, key)
    ensures key in h.agent.journal.table && h.agent.journal.table[key].spec.key == key ==> OnlyPlan(h, h.agent.journal.table[key])
  {
    forall l | l in h.links ensures Backed(node, h, l) { }
  }

  lemma {:induction false} StepDrainSafe(node: Node, h: Host, a: Answers)
    requires Inv(node, h) && (h.pc.DrainList? || h.pc.DrainRemove? || h.pc.Enqueue?)
    ensures Inv(node, StepDrain(h, a))
  {
    hide Runs.Inv, SortedKeys;
    var h' := StepDrain(h, a);
    forall l | l in h'.links ensures Backed(node, h', l) { assert Backed(node, h, l); }
  }

  lemma {:induction false} UnlinkSafe(node: Node, h: Host, record: Record, a: Answers)
    requires LinksBacked(node, h) && OnlyPlan(h, record)
    ensures var (h', ok) := Unlink(node, h, record, a);
      LinksBacked(node, h') && h'.links <= h.links && h' == h.(links := h'.links) && (ok ==> NoLink(h', record.spec.key))
  {
    var (h', ok) := Unlink(node, h, record, a);
    forall l | l in h'.links ensures Backed(node, h', l) { assert Backed(node, h, l); }
  }

  lemma {:induction false} StepDeleteSafe(node: Node, h: Host, a: Answers)
    requires ValidProvider(node.site.provider) && Inv(node, h)
    requires h.pc.DeleteBegin? || h.pc.DeleteCleanup? || h.pc.DeleteComplete?
    ensures Inv(node, StepDelete(node, h, a))
  {
    hide Runs.Inv, Transact, Backed, Unlink, LinksBacked;
    match h.pc
    case DeleteBegin(key, caller) =>
      TransactKeepsLinks(node, h, BeginDelete(key), a);
      BeginDeleteReply(node, h, key, a);
      if h.agent.open { RememberedIsOnly(node, h, key); KeyOfRecord(node, h, key); }
      SameLinksBacked(node, Transact(node, h, BeginDelete(key), a).0, StepDelete(node, h, a));
    case DeleteCleanup(record, caller) =>
      UnlinkSafe(node, h, record, a);
      SameLinksBacked(node, h, StepDelete(node, h, a));
    case DeleteComplete(key, caller) =>
      assert forall k :: Drops(CompleteDelete(key), k) ==> NoLink(h, k);
      TransactKeepsLinks(node, h, CompleteDelete(key), a);
      SameLinksBacked(node, Transact(node, h, CompleteDelete(key), a).0, StepDelete(node, h, a));
  }

  lemma {:induction false} KeyOfRecord(node: Node, h: Host, key: Key)
    requires Runs.Inv(node.site, h.agent)
    ensures key in h.agent.journal.table ==> h.agent.journal.table[key].spec.key == key
    ensures key in h.agent.disk.table ==> h.agent.disk.table[key].spec.key == key
  {
    var table, durable := h.agent.journal.table, h.agent.disk.table;
    assert key in table ==> ValidRecord(node.site, key, table[key]);
    assert key in durable ==> ValidRecord(node.site, key, durable[key]);
  }

  lemma {:induction false} StepAddSafe(node: Node, h: Host, a: Answers)
    requires ValidProvider(node.site.provider) && Inv(node, h)
    requires h.pc.AddInspect? || h.pc.AddVerify? || h.pc.AddRecover? || h.pc.AddRecoverComplete? || h.pc.AddPrepare?
    ensures Inv(node, StepAdd(node, h, a))
  {
    hide Runs.Inv, Transact, Backed, Unlink, LinksBacked;
    match h.pc
    case AddInspect(spec) =>
      TransactKeepsLinks(node, h, Inspect(spec.key), a);
      InspectReply(node, h, spec.key, a);
      if h.agent.open {
        RememberedIsOnly(node, h, spec.key);
        KeyOfRecord(node, h, spec.key);
        if spec.key in h.agent.journal.table && h.agent.journal.table[spec.key].phase == Preparing {
          StayingRecordIsDurable(node, h, spec.key);
        }
      }
      SameLinksBacked(node, Transact(node, h, Inspect(spec.key), a).0, StepAdd(node, h, a));
    case AddVerify(record) => SameLinksBacked(node, h, StepAdd(node, h, a));
    case AddRecover(spec, record) =>
      UnlinkSafe(node, h, record, a);
      SameLinksBacked(node, h, StepAdd(node, h, a));
    case AddRecoverComplete(spec) =>
      assert forall k :: Drops(CompleteAbort(spec.key), k) ==> NoLink(h, k);
      TransactKeepsLinks(node, h, CompleteAbort(spec.key), a);
      SameLinksBacked(node, Transact(node, h, CompleteAbort(spec.key), a).0, StepAdd(node, h, a));
    case AddPrepare(spec) =>
      TransactKeepsLinks(node, h, Prepare(spec), a);
      PrepareReply(node, h, spec, a);
      SameLinksBacked(node, Transact(node, h, Prepare(spec), a).0, StepAdd(node, h, a));
  }

  lemma {:induction false} SameLinksBacked(node: Node, h: Host, h': Host)
    requires LinksBacked(node, h) && h'.agent == h.agent && h'.links <= h.links
    ensures LinksBacked(node, h')
  {
    forall l | l in h'.links ensures Backed(node, h', l) { assert Backed(node, h, l); }
  }

  lemma {:induction false} HeldIsOnly(node: Node, h: Host, record: Record)
    requires LinksBacked(node, h) && Held(h, record)
    ensures OnlyPlan(h, record)
    ensures !node.buildable(PlanOf(record)) ==> NoLink(h, record.spec.key)
    ensures node.buildable(PlanOf(record)) ==> LinksBacked(node, h.(links := h.links + {PlanOf(record)}))
  {
    forall l | l in h.links ensures Backed(node, h, l) { }
    var linked := h.(links := h.links + {PlanOf(record)});
    if node.buildable(PlanOf(record)) {
      forall l | l in linked.links ensures Backed(node, linked, l) {
        if l in h.links { assert Backed(node, h, l); }
      }
    }
  }

  lemma {:induction false} StepFinishSafe(node: Node, h: Host, a: Answers)
    requires ValidProvider(node.site.provider) && Inv(node, h)
    requires h.pc.AddLink? || h.pc.AddRoutes? || h.pc.AddCommit? || h.pc.AbortBegin? || h.pc.AbortUnlink? || h.pc.AbortComplete?
    ensures Inv(node, StepFinish(node, h, a))
  {
    hide Runs.Inv, Transact, Backed, Unlink, LinksBacked;
    var h' := StepFinish(node, h, a);
    match h.pc
    case AddLink(record) =>
      HeldIsOnly(node, h, record);
      SameLinksBacked(node, if h'.links == h.links then h else h.(links := h.links + {PlanOf(record)}), h');
    case AddRoutes(record) =>
      HeldIsOnly(node, h, record);
      SameLinksBacked(node, h, h');
    case AddCommit(record) =>
      HeldIsOnly(node, h, record);
      TransactKeepsLinks(node, h, Commit(record.spec.key), a);
      SameLinksBacked(node, Transact(node, h, Commit(record.spec.key), a).0, h');
    case AbortBegin(record, unlink) =>
      TransactKeepsLinks(node, h, BeginAbort(record.spec.key), a);
      SameLinksBacked(node, Transact(node, h, BeginAbort(record.spec.key), a).0, h');
    case AbortUnlink(record) =>
      UnlinkSafe(node, h, record, a);
      SameLinksBacked(node, h, h');
    case AbortComplete(key) =>
      assert forall k :: Drops(CompleteAbort(key), k) ==> NoLink(h, k);
      TransactKeepsLinks(node, h, CompleteAbort(key), a);
      SameLinksBacked(node, Transact(node, h, CompleteAbort(key), a).0, h');
  }

  lemma {:induction false} StepCollectSafe(node: Node, h: Host, a: Answers)
    requires ValidProvider(node.site.provider) && Inv(node, h)
    requires h.pc.CollectList? || h.pc.CollectRecord? || h.pc.CollectAborting? || h.pc.CollectAborted?
    ensures Inv(node, StepCollect(node, h, a))
  {
    hide Runs.Inv, Transact, Backed, Unlink, Listing, LinksBacked;
    var h' := StepCollect(node, h, a);
    match h.pc
    case CollectList(network, valid, after, failed) => CollectListSafe(node, h, a);
    case CollectRecord(page) => SameLinksBacked(node, h, h');
    case CollectAborting(record, page) =>
      UnlinkSafe(node, h, record, a);
      SameLinksBacked(node, h, h');
    case CollectAborted(key, page) =>
      assert forall k :: Drops(CompleteAbort(key), k) ==> NoLink(h, k);
      TransactKeepsLinks(node, h, CompleteAbort(key), a);
      SameLinksBacked(node, Transact(node, h, CompleteAbort(key), a).0, h');
  }

  lemma {:induction false} CollectListSafe(node: Node, h: Host, a: Answers)
    requires ValidProvider(node.site.provider) && Inv(node, h) && h.pc.CollectList?
    ensures Inv(node, StepCollect(node, h, a))
  {
    hide Runs.Inv, Transact, Backed, Listing, LinksBacked, Drops;
    var h', op := StepCollect(node, h, a), List(h.pc.network, h.pc.after, MAX_LIST_RECORDS);
    assert forall k :: !Drops(op, k) by { ListDropsNothing(op); }
    TransactKeepsLinks(node, h, op, a);
    ListReply(node, h, h.pc.network, h.pc.after, MAX_LIST_RECORDS, a);
    var records := Listing(h.agent.journal.table, h.pc.network, h.pc.after, MAX_LIST_RECORDS);
    forall i | h.agent.open && 0 <= i < |records| ensures OnlyPlan(h, records[i]) {
      RememberedIsOnly(node, h, records[i].spec.key);
    }
    SameLinksBacked(node, Transact(node, h, op, a).0, h');
  }

  lemma {:induction false} ListDropsNothing(op: Operation)
    requires op.List?
    ensures forall k :: !Drops(op, k)
  {
  }

  /** Crashes, reopens and hook installations of the agent keep links backed and records held. */
  lemma {:induction false} AgentEventSafe(node: Node, h: Host, event: Runs.Event)
    requires ValidProvider(node.site.provider) && Inv(node, h) && !event.Transact?
    ensures Inv(node, h.(agent := Runs.Next(node.site, h.agent, event)))
  {
    hide Runs.Inv, Runs.Next, PcSafe, LinksBacked;
    Runs.NextKeepsInv(node.site, h.agent, event);
    AgentTables(node, h, event);
    SameRecords(node, h, Runs.Next(node.site, h.agent, event));
  }

  /** Memory reloaded from the file, or the file rewritten from memory, loses no record. */
  lemma {:induction false} SameRecords(node: Node, h: Host, agent: Runs.World)
    requires LinksBacked(node, h) && PcSafe(h)
    requires agent.disk.table == h.agent.disk.table || (h.agent.open && agent.disk.table == h.agent.journal.table)
    requires agent.open ==> agent.journal.table == if h.agent.open then h.agent.journal.table else h.agent.disk.table
    ensures LinksBacked(node, h.(agent := agent)) && PcSafe(h.(agent := agent))
  {
    var h' := h.(agent := agent);
    forall l | l in h'.links ensures Backed(node, h', l) { assert Backed(node, h, l); }
    assert forall r :: Held(h, r) ==> Held(h', r);
    hide Held, Backed;
  }

  /** What an agent event other than a transaction does to memory and file. */
  lemma {:induction false} AgentTables(node: Node, h: Host, event: Runs.Event)
    requires ValidProvider(node.site.provider) && Runs.Inv(node.site, h.agent) && !event.Transact?
    ensures var agent := Runs.Next(node.site, h.agent, event);
      && (agent.disk.table == h.agent.disk.table || (h.agent.open && agent.disk.table == h.agent.journal.table))
      && (agent.open ==> if h.agent.open then agent.journal.table == h.agent.journal.table
                         else agent.journal.table == h.agent.disk.table)
  {
    hide ValidTable, Runs.Near, JournalDocument.Load, JournalDocument.Encode;
    Runs.LoadsAgain(node.site, h.agent);
  }

  lemma {:induction false} NextSafe(node: Node, h: Host, e: Event)
    requires ValidProvider(node.site.provider) && Inv(node, h)
    ensures Inv(node, Next(node, h, e))
  {
    hide Inv, PluginStep, Runs.Next;
    match e
    case Start(cmd) => RestSafe(node, h, DrainList(cmd)); TickSafe(node, h); TickSafe(node, h.(pc := DrainList(cmd)));
    case Step(a) => PluginStepSafe(node, h, a); TickSafe(node, PluginStep(node, h, a));
    case PluginCrash => RestSafe(node, h, Idle(NoReport)); TickSafe(node, h.(pc := Idle(NoReport)));
    case AgentEvent(event) =>
      TickSafe(node, h);
      if !event.Transact? {
        AgentEventSafe(node, h, event);
        TickSafe(node, h.(agent := Runs.Next(node.site, h.agent, event)));
      }
    case Reboot => RebootSafe(node, h);
  }

  /** The clock is no part of the invariant. */
  lemma {:induction false} TickSafe(node: Node, h: Host)
    requires Inv(node, h)
    ensures forall clock :: Inv(node, h.(clock := clock))
  {
    hide Runs.Inv;
    forall clock ensures Inv(node, h.(clock := clock)) {
      SameLinksBacked(node, h, h.(clock := clock));
    }
  }

  /** Nor is a place where nothing is in hand. */
  lemma {:induction false} RestSafe(node: Node, h: Host, pc: Pc)
    requires Inv(node, h) && (pc.Idle? || pc.DrainList?)
    ensures Inv(node, h.(pc := pc))
  {
    hide Runs.Inv;
    SameLinksBacked(node, h, h.(pc := pc));
  }

  lemma {:induction false} RebootSafe(node: Node, h: Host)
    requires Inv(node, h)
    ensures Inv(node, h.(pc := Idle(NoReport), links := {}, agent := h.agent.(open := false), clock := h.clock + 1))
  {
    hide Runs.Inv;
    AgentDown(node, h);
  }

  lemma {:induction false} AgentDown(node: Node, h: Host)
    requires Runs.Inv(node.site, h.agent)
    ensures Runs.Inv(node.site, h.agent.(open := false))
  {
  }

  lemma {:induction false} PluginStepSafe(node: Node, h: Host, a: Answers)
    requires ValidProvider(node.site.provider) && Inv(node, h)
    ensures Inv(node, PluginStep(node, h, a))
  {
    hide Inv, StepDrain, StepDelete, StepAdd, StepFinish, StepCollect;
    if h.pc.Idle? {
    } else if h.pc.DrainList? || h.pc.DrainRemove? || h.pc.Enqueue? {
      StepDrainSafe(node, h, a);
    } else if h.pc.DeleteBegin? || h.pc.DeleteCleanup? || h.pc.DeleteComplete? {
      StepDeleteSafe(node, h, a);
    } else if h.pc.AddInspect? || h.pc.AddVerify? || h.pc.AddRecover? || h.pc.AddRecoverComplete? || h.pc.AddPrepare? {
      StepAddSafe(node, h, a);
    } else if h.pc.CollectList? || h.pc.CollectRecord? || h.pc.CollectAborting? || h.pc.CollectAborted? {
      StepCollectSafe(node, h, a);
    } else {
      StepFinishSafe(node, h, a);
    }
  }

  lemma {:induction false} RunSafe(node: Node, h: Host, events: seq<Event>)
    requires ValidProvider(node.site.provider) && Inv(node, h)
    ensures Inv(node, Run(node, h, events))
    decreases |events|
  {
    hide Inv, Next;
    if events != [] {
      NextSafe(node, h, events[0]);
      RunSafe(node, Next(node, h, events[0]), events[1..]);
    }
  }

  /** Every live link is the pair of a record present in the file and in a running agent's
      memory with the same lease, and no two live links share a key, an interface or an
      address of either family. */
  ghost predicate LinksOwned(h: Host) {
    && (forall l :: l in h.links ==>
          && l.spec.key in h.agent.disk.table && PlanOf(h.agent.disk.table[l.spec.key]) == l
          && (h.agent.open ==> l.spec.key in h.agent.journal.table && PlanOf(h.agent.journal.table[l.spec.key]) == l))
    && (forall l, m :: l in h.links && m in h.links && l != m ==>
          && l.spec.key != m.spec.key && l.hostInterface != m.hostInterface
          && l.lease.ipv4 != m.lease.ipv4 && l.lease.ipv6 != m.lease.ipv6)
  }

  lemma {:induction false} InvOwnsLinks(node: Node, h: Host)
    requires Inv(node, h)
    ensures LinksOwned(h)
  {
    var durable := h.agent.disk.table;
    assert ValidTable(node.site, durable);
    forall l | l in h.links ensures l.spec.key in durable && PlanOf(durable[l.spec.key]) == l { assert Backed(node, h, l); }
  }

  /** In every serialized run from first boot no live link is without its owner. */
  lemma {:induction false} NoLinkWithoutOwner(node: Node, events: seq<Event>)
    requires ValidProvider(node.site.provider)
    ensures LinksOwned(Run(node, FirstBoot, events))
  {
    assert Inv(node, FirstBoot);
    hide Inv;
    RunSafe(node, FirstBoot, events);
    InvOwnsLinks(node, Run(node, FirstBoot, events));
  }
}
