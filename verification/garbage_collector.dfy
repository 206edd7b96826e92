/** The paged garbage collector: it deletes records while it walks their listing. */
module GarbageCollector {
  import opened Results
  import opened Orders
  import opened Attachments
  import opened JournalModel
  import opened AttachmentJournals
  import opened Lifecycle
  import opened LifecycleSafety
  import opened PluginSteps

  /** The network's records the runtime no longer names. */
  ghost function Stale(table: Table, network: string, valid: set<(string, string)>): set<Key> {
    set k | k in table && k.network == network && (k.containerId, k.ifname) !in valid
  }

  /** Nothing but `key` changed, nothing appeared, and the journal still serves. */
  twostate predicate OnlyKey(journal: AttachmentJournal, key: Key)
    reads journal
  {
    && (forall k :: k != key ==> Lookup(journal.table, k) == old(Lookup(journal.table, k)))
    && (key in journal.table ==> key in old(journal.table))
    && journal.View().Serving() == old(journal.View().Serving())
    && journal.revision <= U64_MAX
    && ValidTable(journal.site, journal.table)
  }

  /** One collector request on a record. */
  method Request(node: Node, journal: AttachmentJournal, op: Operation, a: Answers, nextId: nat, ghost h: Host) returns (reply: Reply, next: nat)
    requires ValidProvider(node.site.provider) && journal.site == node.site && h.agent == AgentOf(journal, nextId)
    requires journal.revision <= U64_MAX && ValidTable(journal.site, journal.table)
    requires MutationKey(op).Some? && !op.Prepare?
    modifies journal
    ensures Transact(node, h, op, a) == (h.(agent := AgentOf(journal, next)), reply)
    ensures !a.lost ==>
      var applied := Apply(node.site, old(journal.View()), old(journal.file), CURRENT_SCHEMA, op, a.env.(newId := nextId));
      journal.View() == applied.journal && reply == if applied.reply.Err? then Rejected else Answer(applied.reply.value)
    ensures OnlyKey(journal, MutationKey(op).value)
    ensures reply.Answer? && (op.CompleteAbort? || op.CompleteDelete?) ==> op.key !in journal.table
    ensures reply.Answer? && op.BeginDelete? && reply.attachment.None? ==> op.key !in journal.table
    ensures reply.Answer? && op.BeginDelete? && reply.attachment.Some? ==> reply.attachment.value.spec.key == op.key
  {
    hide Apply, ValidTable, Transact;
    if op.BeginDelete? { BegunKey(journal.site, journal.View(), journal.file, op.key, a.env.(newId := nextId)); }
    MoveFrame(journal.site, journal.View(), journal.file, op, a.env.(newId := nextId));
    MoveStays(journal.site, journal.View(), journal.file, op, a.env.(newId := nextId));
    reply, next := Send(node, journal, op, a, nextId, h);
  }

  lemma {:induction false} MoveFrame(site: Site, j: Journal, disk: Image, op: Operation, env: Env)
    requires ValidProvider(site.provider) && ValidTable(site, j.table) && j.revision <= U64_MAX && MutationKey(op).Some?
    ensures var a := Apply(site, j, disk, CURRENT_SCHEMA, op, env);
      && (forall k :: k != MutationKey(op).value ==> Lookup(a.journal.table, k) == Lookup(j.table, k))
      && a.journal.revision <= U64_MAX && ValidTable(site, a.journal.table)
  {
    hide Apply, ValidTable, LegalMove, Runs.PlannedMove;
    Runs.ApplyCases(site, j, disk, CURRENT_SCHEMA, op, env);
  }

  lemma {:induction false} MoveStays(site: Site, j: Journal, disk: Image, op: Operation, env: Env)
    requires ValidProvider(site.provider) && MutationKey(op).Some? && !op.Prepare?
    ensures var a := Apply(site, j, disk, CURRENT_SCHEMA, op, env);
      && (MutationKey(op).value in a.journal.table ==> MutationKey(op).value in j.table)
      && (a.reply.Ok? && (op.CompleteAbort? || op.CompleteDelete?) ==> op.key !in a.journal.table)
      && (a.reply == Ok(None) && op.BeginDelete? ==> op.key !in a.journal.table)
      && a.journal.Serving() == j.Serving()
  {
    hide ValidKey, LegacyBlocked;
  }

  lemma {:induction false} BegunKey(site: Site, j: Journal, disk: Image, key: Key, env: Env)
    requires ValidProvider(site.provider) && ValidTable(site, j.table)
    ensures var reply := Apply(site, j, disk, CURRENT_SCHEMA, BeginDelete(key), env).reply;
      reply.Ok? && reply.value.Some? ==> reply.value.value.spec.key == key
  {
    hide ValidKey, LegacyBlocked;
    if key in j.table { assert ValidRecord(site, key, j.table[key]); }
  }

  /** The place of a page's next record. */
  ghost function AtPage(h: Host, journal: AttachmentJournal, nextId: nat, links: set<Plan>, page: Page, rest: seq<Record>, failed: bool): Host
    reads journal
  {
    HostOf(h, journal, nextId, links, Pc.CollectRecord(page.(rest := rest, failed := failed)))
  }

  /** The places of a record whose pair, and then whose entry, is about to go. */
  function CleanupPc(record: Record, aborting: bool, rest: Page): Pc {
    if aborting then CollectAborting(record, rest) else DeleteCleanup(record, OfCollector(rest))
  }

  function CompletePc(key: Key, aborting: bool, rest: Page): Pc {
    if aborting then CollectAborted(key, rest) else DeleteComplete(key, OfCollector(rest))
  }

  /** Drops a record whose pair is gone. */
  method CompleteRecord(node: Node, journal: AttachmentJournal, key: Key, aborting: bool, links: set<Plan>,
                        answers: nat -> Answers, call: nat, nextId: nat, ghost h: Host, ghost listings: nat -> Answers, ghost rest: Page)
    returns (ok: bool, next: nat)
    requires ValidProvider(node.site.provider) && journal.site == node.site
    requires journal.revision <= U64_MAX && ValidTable(journal.site, journal.table)
    requires var now := Drive(node, h, listings, answers, call);
      now == HostOf(now, journal, nextId, links, CompletePc(key, aborting, rest))
    modifies journal
    ensures OnlyKey(journal, key)
    ensures ok ==> key !in journal.table
    ensures Drive(node, h, listings, answers, call + 1) == AtPage(Drive(node, h, listings, answers, call), journal, next, links, rest, rest.rest, rest.failed || !ok)
    ensures AllHealthy(answers) && old(Leaving(journal.View(), key, aborting)) ==> ok && journal.revision <= old(journal.revision) + 1
  {
    hide ValidTable, Transact, Drive, PluginStep, Apply, Leaving, AllHealthy;
    var op := if aborting then CompleteAbort(key) else CompleteDelete(key);
    ghost var now := Drive(node, h, listings, answers, call);
    if AllHealthy(answers) && Leaving(journal.View(), key, aborting) {
      LeavingCompletes(journal.site, journal.View(), journal.file, op, aborting, answers, call, nextId);
    }
    var completed;
    completed, next := Request(node, journal, op, answers(call), nextId, now);
    CompleteStep(node, now, answers(call), rest, key);
    DriveOn(node, h, listings, answers, call);
    ok := completed.Answer?;
  }

  /** Deletes the pair of a record about to leave. */
  method UnlinkRecord(node: Node, record: Record, aborting: bool, links: set<Plan>, answers: nat -> Answers, call: nat,
                      ghost h: Host, ghost listings: nat -> Answers, ghost rest: Page)
    returns (ok: bool, alive: set<Plan>)
    requires ValidProvider(node.site.provider)
    requires var now := Drive(node, h, listings, answers, call);
      now.links == links && now.pc == CleanupPc(record, aborting, rest)
    ensures ok <==> node.buildable(PlanOf(record)) && !answers(call).fails
    ensures alive <= links
    ensures Drive(node, h, listings, answers, call + 1) == Drive(node, h, listings, answers, call).(links := alive, pc :=
      if ok then CompletePc(record.spec.key, aborting, rest) else Pc.CollectRecord(rest.(failed := true)))
  {
    hide Unlink, Drive, PluginStep, PlanOf;
    ghost var now := Drive(node, h, listings, answers, call);
    ok, alive := SendUnlink(node, record, links, answers(call), now);
    DriveOn(node, h, listings, answers, call);
    if aborting { AbortingStep(node, now, answers(call), rest, record); } else { CleanupStep(node, now, answers(call), rest, record); }
  }

  /** Deletes the pair of a record about to leave, then its journal entry: the collector's
      plugin steps from number `call` on. */
  method FinishRecord(node: Node, journal: AttachmentJournal, record: Record, aborting: bool, links: set<Plan>,
                      answers: nat -> Answers, call: nat, nextId: nat, ghost h: Host, ghost listings: nat -> Answers, ghost rest: Page)
    returns (ok: bool, alive: set<Plan>, steps: nat, next: nat)
    requires ValidProvider(node.site.provider) && journal.site == node.site
    requires journal.revision <= U64_MAX && ValidTable(journal.site, journal.table)
    requires var now := Drive(node, h, listings, answers, call);
      now == HostOf(now, journal, nextId, links, CleanupPc(record, aborting, rest))
    modifies journal
    ensures OnlyKey(journal, record.spec.key)
    ensures ok ==> record.spec.key !in journal.table
    ensures alive <= links
    ensures Drive(node, h, listings, answers, steps) == AtPage(Drive(node, h, listings, answers, call), journal, next, alive, rest, rest.rest, rest.failed || !ok)
    ensures AllHealthy(answers) && old(Leaving(journal.View(), record.spec.key, aborting)) ==>
      && (ok <==> node.buildable(PlanOf(record))) && (ok <==> record.spec.key !in journal.table)
      && journal.revision <= old(journal.revision) + 1
  {
    hide ValidTable, Drive, Leaving, AllHealthy, PlanOf, PluginStep, Transact, Unlink, Apply, CleanupPc, CompletePc;
    next, steps := nextId, call + 1;
    if AllHealthy(answers) && Leaving(journal.View(), record.spec.key, aborting) {
      LeavingFacts(journal.View(), record.spec.key, aborting, answers, call);
    }
    ok, alive := UnlinkRecord(node, record, aborting, links, answers, call, h, listings, rest);
    if !ok { return; }
    ok, next := CompleteRecord(node, journal, record.spec.key, aborting, alive, answers, steps, next, h, listings, rest);
    steps := steps + 1;
  }

  ghost predicate AllHealthy(answers: nat -> Answers) { forall n :: Healthy(answers(n)) }

  /** A serving journal that can drop this record. */
  ghost predicate Leaving(j: Journal, key: Key, aborting: bool) {
    && j.Serving() && j.revision + 1 <= U64_MAX && ValidKey(key)
    && key in j.table && j.table[key].phase == if aborting then Aborting else Deleting
  }

  lemma {:induction false} LeavingFacts(j: Journal, key: Key, aborting: bool, answers: nat -> Answers, n: nat)
    requires AllHealthy(answers) && Leaving(j, key, aborting)
    ensures Healthy(answers(n)) && key in j.table
  {
  }

  lemma {:induction false} LeavingCompletes(site: Site, j: Journal, disk: Image, op: Operation, aborting: bool, answers: nat -> Answers, n: nat, newId: nat)
    requires ValidProvider(site.provider) && (op.CompleteAbort? || op.CompleteDelete?) && aborting == op.CompleteAbort?
    requires AllHealthy(answers) && Leaving(j, op.key, aborting)
    ensures !answers(n).lost
    ensures var applied := Apply(site, j, disk, CURRENT_SCHEMA, op, answers(n).env.(newId := newId));
      applied.reply.Ok? && applied.journal.table == j.table - {op.key} && applied.journal.revision <= j.revision + 1
  {
    hide Apply, ValidKey;
    assert Healthy(answers(n));
    HealthyComplete(site, j, disk, op, answers(n), newId);
  }

  /** A serving journal that holds this record. */
  ghost predicate Collectable(j: Journal, record: Record) {
    j.Serving() && j.revision + 2 <= U64_MAX && Lookup(j.table, record.spec.key) == Some(record)
  }

  /** Removes one listed record. It does exactly the collector's plugin steps from number `call`
      on, and with answers that all go well it succeeds exactly when the pair can be built. */
  method CollectRecord(node: Node, journal: AttachmentJournal, record: Record, links: set<Plan>,
                       answers: nat -> Answers, call: nat, nextId: nat, ghost h: Host, ghost listings: nat -> Answers, ghost page: Page)
    returns (ok: bool, alive: set<Plan>, steps: nat, next: nat)
    requires ValidProvider(node.site.provider) && journal.site == node.site
    requires journal.revision <= U64_MAX && ValidTable(journal.site, journal.table)
    requires page.rest != [] && page.rest[0] == record && (record.spec.key.containerId, record.spec.key.ifname) !in page.valid
    requires var now := Drive(node, h, listings, answers, call); now == AtPage(now, journal, nextId, links, page, page.rest, page.failed)
    modifies journal
    ensures OnlyKey(journal, record.spec.key)
    ensures ok ==> record.spec.key !in journal.table
    ensures alive <= links
    ensures Drive(node, h, listings, answers, steps) == AtPage(Drive(node, h, listings, answers, call), journal, next, alive, page, page.rest[1..], page.failed || !ok)
    ensures AllHealthy(answers) && old(Collectable(journal.View(), record)) ==>
      && (ok <==> node.buildable(PlanOf(record))) && (ok <==> record.spec.key !in journal.table)
      && journal.revision <= old(journal.revision) + 2
  {
    hide ValidTable, Transact, Drive, PluginStep, Apply, Collectable, Leaving, AllHealthy, PlanOf;
    var leaving := record;
    ghost var calm := AllHealthy(answers) && Collectable(journal.View(), record);
    ghost var rest, now := page.(rest := page.rest[1..]), Drive(node, h, listings, answers, call);
    next, steps := nextId, call + 1;
    VisitStep(node, now, answers(call));
    DriveOn(node, h, listings, answers, call);
    if record.phase != Aborting {
      now := Drive(node, h, listings, answers, steps);
      if calm { CollectableBegins(journal.site, journal.View(), journal.file, record, answers, steps, next); }
      var begun;
      begun, next := Request(node, journal, BeginDelete(record.spec.key), answers(steps), next, now);
      BeginStep(node, now, answers(steps), rest);
      DriveOn(node, h, listings, answers, steps);
      steps := steps + 1;
      if !begun.Answer? { return false, links, steps, next; }
      if begun.attachment.None? { return true, links, steps, next; }
      leaving := begun.attachment.value;
    }
    if calm && record.phase == Aborting { CollectableAborting(journal.site, journal.View(), record); }
    SamePlan(record);
    ok, alive, steps, next := FinishRecord(node, journal, leaving, record.phase == Aborting, links, answers, steps, next, h, listings, rest);
  }

  lemma {:induction false} SamePlan(record: Record)
    ensures PlanOf(record.(phase := Deleting)) == PlanOf(record)
  {
  }

  /** A healthy begin leaves the record ready to leave. */
  lemma {:induction false} CollectableBegins(site: Site, j: Journal, disk: Image, record: Record, answers: nat -> Answers, n: nat, newId: nat)
    requires ValidProvider(site.provider) && ValidTable(site, j.table) && AllHealthy(answers) && Collectable(j, record) && record.phase != Aborting
    ensures !answers(n).lost
    ensures var applied := Apply(site, j, disk, CURRENT_SCHEMA, BeginDelete(record.spec.key), answers(n).env.(newId := newId));
      && applied.reply == Ok(Some(record.(phase := Deleting)))
      && Leaving(applied.journal, record.spec.key, false) && applied.journal.revision <= j.revision + 1
  {
    hide ValidTable, Apply, ValidKey;
    assert Healthy(answers(n));
    TableKeyValid(site, j.table, record.spec.key);
    HealthyBegin(site, j, disk, record.spec.key, answers(n), newId);
  }

  lemma {:induction false} CollectableAborting(site: Site, j: Journal, record: Record)
    requires ValidTable(site, j.table) && Collectable(j, record) && record.phase == Aborting
    ensures Leaving(j, record.spec.key, true)
  {
    hide ValidTable, ValidKey;
    TableKeyValid(site, j.table, record.spec.key);
  }

  lemma {:induction false} TableKeyValid(site: Site, table: Table, key: Key)
    requires ValidTable(site, table) && key in table
    ensures ValidKey(key)
  {
    hide ValidKey;
    assert ValidRecord(site, key, table[key]);
  }

  // The collector's steps on one record.

  lemma {:induction false} VisitStep(node: Node, h: Host, a: Answers)
    requires ValidProvider(node.site.provider) && h.pc.CollectRecord? && h.pc.page.rest != []
    requires var key := h.pc.page.rest[0].spec.key; (key.containerId, key.ifname) !in h.pc.page.valid
    ensures var record, rest := h.pc.page.rest[0], h.pc.page.(rest := h.pc.page.rest[1..]);
      PluginStep(node, h, a) == h.(pc := if record.phase == Aborting then CollectAborting(record, rest) else DeleteBegin(record.spec.key, OfCollector(rest)))
  {
  }

  lemma {:induction false} Returns(rest: Page, ok: bool, transport: bool)
    ensures DeleteReturns(OfCollector(rest), ok, transport) == Pc.CollectRecord(rest.(failed := rest.failed || !ok))
  {
  }

  lemma {:induction false} BeginStep(node: Node, h: Host, a: Answers, rest: Page)
    requires ValidProvider(node.site.provider) && h.pc.DeleteBegin? && h.pc.caller == OfCollector(rest)
    ensures var (h', reply) := Transact(node, h, BeginDelete(h.pc.key), a);
      PluginStep(node, h, a) == h'.(pc :=
        if reply.Answer? && reply.attachment.Some? then DeleteCleanup(reply.attachment.value, OfCollector(rest))
        else Pc.CollectRecord(rest.(failed := rest.failed || !reply.Answer?)))
  {
    hide Transact, DeleteReturns;
    var reply := Transact(node, h, BeginDelete(h.pc.key), a).1;
    if reply.Answer? { Returns(rest, true, false); } else { Returns(rest, false, reply.Transport?); }
  }

  lemma {:induction false} CleanupStep(node: Node, h: Host, a: Answers, rest: Page, record: Record)
    requires ValidProvider(node.site.provider) && h.pc == DeleteCleanup(record, OfCollector(rest))
    ensures var (h', ok) := Unlink(node, h, record, a);
      PluginStep(node, h, a) == h'.(pc := if ok then DeleteComplete(record.spec.key, OfCollector(rest)) else Pc.CollectRecord(rest.(failed := true)))
  {
    hide Unlink, DeleteReturns;
    Returns(rest, false, false);
  }

  lemma {:induction false} AbortingStep(node: Node, h: Host, a: Answers, rest: Page, record: Record)
    requires ValidProvider(node.site.provider) && h.pc == CollectAborting(record, rest)
    ensures var (h', ok) := Unlink(node, h, record, a);
      PluginStep(node, h, a) == h'.(pc := if ok then CollectAborted(record.spec.key, rest) else Pc.CollectRecord(rest.(failed := true)))
  {
    hide Unlink;
  }

  lemma {:induction false} CompleteStep(node: Node, h: Host, a: Answers, rest: Page, key: Key)
    requires ValidProvider(node.site.provider) && (h.pc == DeleteComplete(key, OfCollector(rest)) || h.pc == CollectAborted(key, rest))
    ensures var (h', reply) := Transact(node, h, if h.pc.CollectAborted? then CompleteAbort(key) else CompleteDelete(key), a);
      PluginStep(node, h, a) == h'.(pc := Pc.CollectRecord(rest.(failed := rest.failed || !reply.Answer?)))
  {
    hide Transact, DeleteReturns;
    if h.pc.DeleteComplete? {
      var reply := Transact(node, h, CompleteDelete(key), a).1;
      Returns(rest, reply.Answer?, reply.Transport?);
    }
  }

  /** The front of an ordered listing holds every key up to its last one. */
  lemma {:induction false} FrontCovers(keys: seq<Key>, past: set<Key>, page: seq<Key>, limit: nat)
    requires Ascending(keys, KeyLess) && (forall k :: k in keys <==> k in past) && limit >= 1
    requires page == if |keys| <= limit then keys else keys[..limit]
    ensures Ascending(page, KeyLess)
    ensures |page| < limit ==> page == keys
    ensures page == [] ==> past == {}
    ensures page != [] ==> forall k :: k in past && k !in page ==> KeyLess(page[|page| - 1], k)
  {
    hide KeyLess;
    if page == [] { assert forall k :: k in past ==> k in keys; }
    if page != [] {
      assert forall n :: 0 <= n < |page| ==> keys[n] == page[n];
      forall k | k in past && k !in page ensures KeyLess(page[|page| - 1], k) {
        var i :| 0 <= i < |keys| && keys[i] == k;
        assert i >= |page|;
      }
    }
  }

  lemma {:induction false} PageCovers(table: Table, network: string, after: Option<Key>, limit: nat)
    requires limit >= 1
    ensures var keys := SortedKeys(Past(table, network, after));
      var page := if |keys| <= limit then keys else keys[..limit];
      && Ascending(page, KeyLess)
      && (forall k :: k in page ==> k in Past(table, network, after))
      && (|page| < limit ==> forall k :: k in Past(table, network, after) ==> k in page)
      && (page == [] ==> Past(table, network, after) == {})
      && (page != [] ==> forall k :: k in Past(table, network, after) && k !in page ==> KeyLess(page[|page| - 1], k))
  {
    hide KeyLess, Past, SortedKeys, Ascending;
    var keys := SortedKeys(Past(table, network, after));
    var page := if |keys| <= limit then keys else keys[..limit];
    FrontCovers(keys, Past(table, network, after), page, limit);
  }

  /** What the walk has established when it has passed `cursor`: only stale records were
      touched, each once, in order, and none at or before the cursor was missed. */
  ghost predicate Walked(before: Table, now: Table, network: string, valid: set<(string, string)>, cursor: Option<Key>, attempted: seq<Key>) {
    && (forall k :: k in now ==> k in before)
    && (forall k :: k !in attempted ==> Lookup(now, k) == Lookup(before, k))
    && Ascending(attempted, KeyLess)
    && (forall k :: k in attempted ==> k in Stale(before, network, valid) && cursor.Some? && (k == cursor.value || KeyLess(k, cursor.value)))
    && (forall k :: k in Stale(before, network, valid) && cursor.Some? && !KeyLess(cursor.value, k) ==> k in attempted)
  }

  /** The keys of a page taken from `listed` past `after`. */
  ghost predicate IsPage(listed: Table, network: string, after: Option<Key>, page: seq<Key>) {
    && Ascending(page, KeyLess)
    && (forall k :: k in page ==> k in Past(listed, network, after))
    && (page != [] ==> forall k :: k in Past(listed, network, after) && k !in page ==> KeyLess(page[|page| - 1], k))
  }

  /** Between one page entry and the next there is nothing left to collect. */
  lemma {:induction false} NothingBetween(before: Table, listed: Table, network: string, valid: set<(string, string)>,
                                          after: Option<Key>, page: seq<Key>, i: nat, k: Key)
    requires i < |page| && IsPage(listed, network, after, page)
    requires k in Stale(before, network, valid) && k in listed
    requires if i == 0 then after.None? || KeyLess(after.value, k) else KeyLess(page[i - 1], k)
    requires !KeyLess(page[i], k)
    ensures k == page[i]
  {
    hide KeyLess;
    KeyOrder();
    if i > 0 && after.Some? {
      assert KeyLess(after.value, page[i - 1]) by { assert page[i - 1] in Past(listed, network, after); }
    }
    assert k in Past(listed, network, after);
    assert i == |page| - 1 || KeyLess(page[i], page[|page| - 1]);
    assert k in page;
    var j :| 0 <= j < |page| && page[j] == k;
  }

  /** The cursor before entry i of a page. */
  function CursorAt(after: Option<Key>, page: seq<Key>, i: nat): Option<Key>
    requires i <= |page|
  {
    if i == 0 then after else Some(page[i - 1])
  }

  lemma {:induction false} WalkOn(before: Table, listed: Table, now: Table, next: Table, network: string, valid: set<(string, string)>,
                                  after: Option<Key>, page: seq<Key>, i: nat, start: seq<Key>, attempted: seq<Key>)
    requires i < |page| && IsPage(listed, network, after, page)
    requires Walked(before, listed, network, valid, after, start) && (forall k :: k in start ==> k in attempted)
    requires Walked(before, now, network, valid, CursorAt(after, page, i), attempted)
    requires forall k :: k != page[i] ==> Lookup(next, k) == Lookup(now, k)
    requires page[i] in next ==> page[i] in now
    requires (page[i].containerId, page[i].ifname) in valid ==> next == now
    ensures Walked(before, next, network, valid, Some(page[i]),
                   if (page[i].containerId, page[i].ifname) in valid then attempted else attempted + [page[i]])
  {
    hide KeyLess;
    KeyOrder();
    var stale := (page[i].containerId, page[i].ifname) !in valid;
    var grown := if stale then attempted + [page[i]] else attempted;
    assert page[i] in Past(listed, network, after) && page[i] in before;
    assert i > 0 ==> KeyLess(page[i - 1], page[i]);
    assert forall k :: k in attempted ==> KeyLess(k, page[i]);
    forall k | k in Stale(before, network, valid) && !KeyLess(page[i], k) ensures k in grown {
      if k !in attempted {
        assert Lookup(listed, k) == Lookup(before, k);
        NothingBetween(before, listed, network, valid, after, page, i, k);
      }
    }
    assert forall k :: k in next ==> Lookup(next, k).Some?;
    forall k | k in next ensures k in before { if k != page[i] { assert Lookup(now, k).Some?; } }
  }

  function KeysOf(records: seq<Record>): (keys: seq<Key>)
    ensures |keys| == |records|
  {
    seq(|records|, i requires 0 <= i < |records| => records[i].spec.key)
  }

  lemma {:induction false} ListedKeys(site: Site, listed: Table, network: string, after: Option<Key>)
    requires ValidTable(site, listed)
    ensures var keys := SortedKeys(Past(listed, network, after));
      KeysOf(Listing(listed, network, after, MAX_LIST_RECORDS)) == if |keys| <= MAX_LIST_RECORDS then keys else keys[..MAX_LIST_RECORDS]
  {
    hide KeyLess, ValidSpec, ValidLease;
    var keys := SortedKeys(Past(listed, network, after));
    var front := if |keys| <= MAX_LIST_RECORDS then keys else keys[..MAX_LIST_RECORDS];
    PageRecords(listed, network, after, MAX_LIST_RECORDS, front);
    var page := KeysOf(Listing(listed, network, after, MAX_LIST_RECORDS));
    forall i | 0 <= i < |front| ensures page[i] == front[i] {
      assert ValidRecord(site, front[i], listed[front[i]]);
    }
    assert page == front;
  }

  lemma {:induction false} ListedKeyValid(site: Site, listed: Table, network: string, after: Option<Key>, k: Key)
    requires ValidTable(site, listed) && k in Past(listed, network, after)
    ensures ValidKey(k)
  {
    assert ValidRecord(site, k, listed[k]);
  }

  /** The keys of a listing are a page, complete when it is short. */
  lemma {:induction false} ListedPage(site: Site, listed: Table, network: string, after: Option<Key>)
    requires ValidTable(site, listed)
    ensures var page := KeysOf(Listing(listed, network, after, MAX_LIST_RECORDS));
      && IsPage(listed, network, after, page)
      && |page| <= MAX_LIST_RECORDS
      && (|page| < MAX_LIST_RECORDS ==> forall k :: k in Past(listed, network, after) ==> k in page)
      && (forall k :: k in page ==> ValidKey(k))
  {
    hide KeyLess, ValidKey, ValidTable, Listing, SortedKeys;
    ListedKeys(site, listed, network, after);
    PageCovers(listed, network, after, MAX_LIST_RECORDS);
    var page := KeysOf(Listing(listed, network, after, MAX_LIST_RECORDS));
    forall k | k in page ensures ValidKey(k) { ListedKeyValid(site, listed, network, after, k); }
  }

  /** Whatever stale record was not attempted yet still lies past the cursor, unchanged. */
  lemma {:induction false} LeftIsPast(before: Table, now: Table, network: string, valid: set<(string, string)>, after: Option<Key>, attempted: seq<Key>, k: Key)
    requires Walked(before, now, network, valid, after, attempted)
    requires k in Stale(before, network, valid) && k !in attempted
    ensures k in Past(now, network, after)
  {
    hide KeyLess;
    assert Lookup(now, k) == Lookup(before, k);
  }

  lemma {:induction false} LastIsGreatest(listed: Table, network: string, after: Option<Key>, page: seq<Key>, k: Key)
    requires IsPage(listed, network, after, page) && k in page
    ensures !KeyLess(page[|page| - 1], k)
  {
    hide KeyLess;
    KeyOrder();
    var i :| 0 <= i < |page| && page[i] == k;
    if i < |page| - 1 { assert KeyLess(page[i], page[|page| - 1]); }
  }

  lemma {:induction false} PastShrinks(before: Table, listed: Table, network: string, after: Option<Key>, page: seq<Key>)
    requires IsPage(listed, network, after, page) && page != [] && forall k :: k in listed ==> k in before
    ensures Past(before, network, Some(page[|page| - 1])) < Past(before, network, after)
  {
    hide KeyLess;
    KeyOrder();
    var last := page[|page| - 1];
    assert last in Past(listed, network, after) && last in before;
    assert last in Past(before, network, after);
    forall k | k in Past(before, network, Some(last)) ensures k in Past(before, network, after) {
    }
  }

  /** A short page was the last one: nothing stale is left to attempt. */
  lemma {:induction false} LastPageCompletes(before: Table, listed: Table, now: Table, network: string, valid: set<(string, string)>,
                                             after: Option<Key>, page: seq<Key>, start: seq<Key>, attempted: seq<Key>, k: Key)
    requires IsPage(listed, network, after, page) && (forall x :: x in Past(listed, network, after) ==> x in page)
    requires Walked(before, listed, network, valid, after, start) && (forall x :: x in start ==> x in attempted)
    requires Walked(before, now, network, valid, CursorAt(after, page, |page|), attempted)
    requires k in Stale(before, network, valid)
    ensures k in attempted
  {
    hide KeyLess, Walked, IsPage;
    if k !in attempted {
      LeftIsPast(before, listed, network, valid, after, start, k);
      LeftIsPast(before, now, network, valid, CursorAt(after, page, |page|), attempted, k);
      LastIsGreatest(listed, network, after, page, k);
    }
  }

  ghost predicate Gone(attempted: seq<Key>, table: Table) {
    forall k :: k in attempted ==> k !in table
  }

  lemma {:induction false} GoneGrows(attempted: seq<Key>, key: Key, now: Table, next: Table)
    requires Gone(attempted, now) && key !in next && forall k :: k != key ==> Lookup(next, k) == Lookup(now, k)
    ensures Gone(attempted + [key], next)
  {
    forall k | k in attempted + [key] ensures k !in next { if k != key { assert Lookup(next, k) == Lookup(now, k); } }
  }

  /** With answers that all go well, exactly the attempted records whose pair cannot be built
      are left, and there is a failure only if one is. */
  ghost predicate Accounted(node: Node, before: Table, now: Table, attempted: seq<Key>, clean: bool) {
    && (forall k :: k in attempted ==> k in before && (k in now <==> !node.buildable(PlanOf(before[k]))))
    && ((forall k :: k in attempted && k in before ==> node.buildable(PlanOf(before[k]))) ==> clean)
  }

  lemma {:induction false} AccountedOn(node: Node, before: Table, now: Table, next: Table, attempted: seq<Key>, clean: bool, key: Key, ok: bool)
    requires Accounted(node, before, now, attempted, clean) && key !in attempted && key in before
    requires forall k :: k != key ==> Lookup(next, k) == Lookup(now, k)
    requires (ok <==> node.buildable(PlanOf(before[key]))) && (ok <==> key !in next)
    ensures Accounted(node, before, next, attempted + [key], clean && ok)
  {
    var grown := attempted + [key];
    forall k | k in grown ensures k in before && (k in next <==> !node.buildable(PlanOf(before[k]))) {
      if k != key { assert Lookup(next, k) == Lookup(now, k); }
    }
    if forall k :: k in grown && k in before ==> node.buildable(PlanOf(before[k])) {
      assert forall k :: k in attempted ==> k in grown;
      assert key in grown;
    }
  }

  /** The next record of a page is still as it was listed, and there is room for it. */
  lemma {:induction false} NotYet(before: Table, listed: Table, now: Table, network: string, valid: set<(string, string)>,
                                  after: Option<Key>, page: seq<Key>, i: nat, start: seq<Key>, attempted: seq<Key>)
    requires i < |page| && IsPage(listed, network, after, page) && (page[i].containerId, page[i].ifname) !in valid
    requires Walked(before, listed, network, valid, after, start) && (forall k :: k in start ==> k in attempted)
    requires Walked(before, now, network, valid, CursorAt(after, page, i), attempted)
    ensures page[i] !in attempted && page[i] in before
    ensures Lookup(now, page[i]) == Lookup(before, page[i]) == Lookup(listed, page[i])
    ensures |attempted| < |Stale(before, network, valid)|
  {
    hide KeyLess;
    KeyOrder();
    assert page[i] in Past(listed, network, after) && page[i] in before;
    assert i > 0 ==> KeyLess(page[i - 1], page[i]);
    assert forall k :: k in attempted ==> KeyLess(k, page[i]);
    assert page[i] !in attempted && page[i] !in start;
    FewerThan(attempted, page[i], Stale(before, network, valid));
  }

  lemma {:induction false} FewerThan(attempted: seq<Key>, key: Key, stale: set<Key>)
    requires Ascending(attempted, KeyLess) && key !in attempted && key in stale && forall k :: k in attempted ==> k in stale
    ensures |attempted| < |stale|
  {
    hide KeyLess;
    KeyOrder();
    DistinctFit(attempted, stale - {key});
  }

  lemma {:induction false} DistinctFit(keys: seq<Key>, all: set<Key>)
    requires (forall i, j :: 0 <= i < j < |keys| ==> keys[i] != keys[j]) && forall k :: k in keys ==> k in all
    ensures |keys| <= |all|
    decreases |keys|
  {
    if keys != [] {
      var last := keys[|keys| - 1];
      DistinctFit(keys[..|keys| - 1], all - {last});
    }
  }

  /** Nothing fails, the journal serves, and its revision has room for what is still stale. */
  ghost predicate Favourable(node: Node, j: Journal, before: Table, network: string, valid: set<(string, string)>,
                             attempted: seq<Key>, clean: bool, answers: nat -> Answers) {
    && AllHealthy(answers) && j.Serving()
    && j.revision + 2 * |Stale(before, network, valid)| <= U64_MAX + 2 * |attempted|
    && Accounted(node, before, j.table, attempted, clean)
  }

  lemma {:induction false} FavourableRecord(node: Node, j: Journal, before: Table, network: string, valid: set<(string, string)>,
                                            attempted: seq<Key>, clean: bool, answers: nat -> Answers, record: Record)
    requires Favourable(node, j, before, network, valid, attempted, clean, answers)
    requires Lookup(j.table, record.spec.key) == Some(record) && |attempted| < |Stale(before, network, valid)|
    ensures AllHealthy(answers) && Collectable(j, record) && j.Serving()
  {
    hide Stale, Accounted;
  }

  lemma {:induction false} FavourableOn(node: Node, j: Journal, j': Journal, before: Table, network: string, valid: set<(string, string)>,
                                        attempted: seq<Key>, clean: bool, answers: nat -> Answers, key: Key, ok: bool)
    requires Favourable(node, j, before, network, valid, attempted, clean, answers) && key !in attempted && key in before
    requires j'.Serving() && j'.revision <= j.revision + 2 && forall k :: k != key ==> Lookup(j'.table, k) == Lookup(j.table, k)
    requires (ok <==> node.buildable(PlanOf(before[key]))) && (ok <==> key !in j'.table)
    ensures Favourable(node, j', before, network, valid, attempted + [key], clean && ok, answers)
  {
    hide Stale, Accounted;
    AccountedOn(node, before, j.table, j'.table, attempted, clean, key, ok);
  }

  /** Where a walk over a page stands before its record number i. */
  ghost predicate AtRecord(node: Node, journal: AttachmentJournal, before: Table, network: string, valid: set<(string, string)>,
                           after: Option<Key>, keys: seq<Key>, i: nat, start: seq<Key>, attempted: seq<Key>)
    requires i <= |keys|
    reads journal
  {
    && journal.site == node.site && journal.revision <= U64_MAX && ValidTable(journal.site, journal.table)
    && Walked(before, journal.table, network, valid, CursorAt(after, keys, i), attempted)
    && forall k :: k in start ==> k in attempted
  }

  /** One record of a page: passed over when valid, attempted when stale. */
  method VisitRecord(node: Node, journal: AttachmentJournal, network: string, valid: set<(string, string)>, links: set<Plan>,
                     answers: nat -> Answers, call: nat, nextId: nat, record: Record, attempted: seq<Key>, ghost h: Host, ghost listings: nat -> Answers,
                     ghost page: Page, ghost before: Table, ghost listed: Table, ghost after: Option<Key>, ghost keys: seq<Key>, ghost i: nat,
                     ghost start: seq<Key>, ghost clean: bool)
    returns (grown: seq<Key>, ok: bool, alive: set<Plan>, steps: nat, next: nat)
    requires ValidProvider(node.site.provider) && i < |keys| && keys[i] == record.spec.key && Lookup(listed, keys[i]) == Some(record)
    requires IsPage(listed, network, after, keys) && Walked(before, listed, network, valid, after, start)
    requires AtRecord(node, journal, before, network, valid, after, keys, i, start, attempted)
    requires page.valid == valid && page.rest != [] && page.rest[0] == record
    requires var now := Drive(node, h, listings, answers, call); now == AtPage(now, journal, nextId, links, page, page.rest, page.failed)
    modifies journal
    ensures AtRecord(node, journal, before, network, valid, after, keys, i + 1, start, grown)
    ensures journal.View().Serving() == old(journal.View().Serving())
    ensures ok && old(Gone(attempted, journal.table)) ==> Gone(grown, journal.table)
    ensures alive <= links
    ensures Drive(node, h, listings, answers, steps) == AtPage(Drive(node, h, listings, answers, call), journal, next, alive, page, page.rest[1..], page.failed || !ok)
    ensures old(Favourable(node, journal.View(), before, network, valid, attempted, clean, answers)) ==>
      Favourable(node, journal.View(), before, network, valid, grown, clean && ok, answers)
  {
    hide KeyLess, ValidTable, ValidKey, Walked, IsPage, Gone, PluginStep, Drive, Favourable, Stale, AllHealthy, Collectable;
    ghost var now, j := journal.table, journal.View();
    var key := record.spec.key;
    if (key.containerId, key.ifname) in valid {
      WalkOn(before, listed, now, now, network, valid, after, keys, i, start, attempted);
      SkipsValid(node, Drive(node, h, listings, answers, call), answers(call));
      DriveOn(node, h, listings, answers, call);
      return attempted, true, links, call + 1, nextId;
    }
    NotYet(before, listed, now, network, valid, after, keys, i, start, attempted);
    ghost var calm := Favourable(node, j, before, network, valid, attempted, clean, answers);
    if calm { FavourableRecord(node, j, before, network, valid, attempted, clean, answers, record); }
    ok, alive, steps, next := CollectRecord(node, journal, record, links, answers, call, nextId, h, listings, page);
    if calm { FavourableOn(node, j, journal.View(), before, network, valid, attempted, clean, answers, key, ok); }
    WalkOn(before, listed, now, journal.table, network, valid, after, keys, i, start, attempted);
    if ok && Gone(attempted, now) { GoneGrows(attempted, key, now, journal.table); }
    grown := attempted + [key];
  }

  /** Visits the records of one page, as the collector's plugin steps do. */
  method CollectPage(node: Node, journal: AttachmentJournal, network: string, valid: set<(string, string)>, links: set<Plan>,
                     answers: nat -> Answers, call: nat, nextId: nat, records: seq<Record>, start: seq<Key>, ghost h: Host, ghost listings: nat -> Answers,
                     ghost page: Page, ghost before: Table, ghost after: Option<Key>, ghost clean: bool)
    returns (attempted: seq<Key>, failures: nat, alive: set<Plan>, steps: nat, next: nat)
    requires ValidProvider(node.site.provider)
    requires IsPage(journal.table, network, after, KeysOf(records))
    requires forall i :: 0 <= i < |records| ==> Lookup(journal.table, records[i].spec.key) == Some(records[i])
    requires AtRecord(node, journal, before, network, valid, after, KeysOf(records), 0, start, start)
    requires page.valid == valid && page.rest == records
    requires var now := Drive(node, h, listings, answers, call); now == AtPage(now, journal, nextId, links, page, records, page.failed)
    modifies journal
    ensures AtRecord(node, journal, before, network, valid, after, KeysOf(records), |records|, start, attempted)
    ensures journal.View().Serving() == old(journal.View().Serving())
    ensures failures == 0 && old(Gone(start, journal.table)) ==> Gone(attempted, journal.table)
    ensures alive <= links
    ensures Drive(node, h, listings, answers, steps) == AtPage(Drive(node, h, listings, answers, call), journal, next, alive, page, [], page.failed || failures > 0)
    ensures old(Favourable(node, journal.View(), before, network, valid, start, clean, answers)) ==>
      Favourable(node, journal.View(), before, network, valid, attempted, clean && failures == 0, answers)
  {
    hide ValidTable, Walked, IsPage, Gone, PluginStep, Drive, Favourable;
    attempted, failures, alive, steps, next := start, 0, links, call, nextId;
    ghost var listed, keys, first := journal.table, KeysOf(records), Drive(node, h, listings, answers, call);
    ghost var calm := Favourable(node, journal.View(), before, network, valid, start, clean, answers);
    for i := 0 to |records|
      invariant AtRecord(node, journal, before, network, valid, after, keys, i, start, attempted)
      invariant journal.View().Serving() == old(journal.View().Serving())
      invariant failures == 0 && Gone(start, listed) ==> Gone(attempted, journal.table)
      invariant alive <= links
      invariant Drive(node, h, listings, answers, steps) == AtPage(first, journal, next, alive, page, records[i..], page.failed || failures > 0)
      invariant calm ==> Favourable(node, journal.View(), before, network, valid, attempted, clean && failures == 0, answers)
    {
      var ok;
      attempted, ok, alive, steps, next :=
        VisitRecord(node, journal, network, valid, alive, answers, steps, next, records[i], attempted, h, listings,
                    Drive(node, h, listings, answers, steps).pc.page, before, listed, after, keys, i, start, clean && failures == 0);
      if !ok { failures := failures + 1; }
    }
  }

  lemma {:induction false} SkipsValid(node: Node, h: Host, a: Answers)
    requires ValidProvider(node.site.provider) && h.pc.CollectRecord? && h.pc.page.rest != []
    requires var key := h.pc.page.rest[0].spec.key; (key.containerId, key.ifname) in h.pc.page.valid
    ensures PluginStep(node, h, a) == h.(pc := Pc.CollectRecord(h.pc.page.(rest := h.pc.page.rest[1..])))
  {
  }

  /** No listing the collector made was lost. */
  ghost predicate ListingsArrived(node: Node, h: Host, listings: nat -> Answers, answers: nat -> Answers, steps: nat)
    requires ValidProvider(node.site.provider)
  {
    forall i :: 0 <= i < steps && Drive(node, h, listings, answers, i).pc.CollectList? ==> !listings(i).lost
  }

  /** A lost listing ends the command, so none was lost before a place that is not the end. */
  lemma {:induction false} NoneLostBefore(node: Node, h: Host, listings: nat -> Answers, answers: nat -> Answers, n: nat)
    requires ValidProvider(node.site.provider) && !Drive(node, h, listings, answers, n).pc.Idle?
    ensures ListingsArrived(node, h, listings, answers, n)
  {
    hide Drive;
    forall i | 0 <= i < n && Drive(node, h, listings, answers, i).pc.CollectList? ensures !listings(i).lost {
      DriveOn(node, h, listings, answers, i);
      LostListingEnds(node, Drive(node, h, listings, answers, i), listings(i));
      if listings(i).lost { EndedStays(node, h, listings, answers, i + 1, n); }
    }
  }

  lemma {:induction false} LostListingEnds(node: Node, h: Host, a: Answers)
    requires ValidProvider(node.site.provider) && h.pc.CollectList?
    ensures a.lost ==> PluginStep(node, h, a).pc.Idle?
  {
    hide Listing, Apply, Runs.Next;
  }

  /** How one page ended: its listing failed, it was the last, or the walk goes on. */
  datatype Round = Broken | Finished | Onward(last: Key)

  /** Between two pages. */
  ghost predicate Between(node: Node, journal: AttachmentJournal, before: Table, network: string, valid: set<(string, string)>, after: Option<Key>, attempted: seq<Key>)
    reads journal
  {
    && journal.site == node.site && journal.revision <= U64_MAX && ValidTable(journal.site, journal.table)
    && Walked(before, journal.table, network, valid, after, attempted) && (after.Some? ==> ValidKey(after.value))
  }

  /** What the walk has done whenever it ends. */
  ghost predicate Done(before: Table, now: Table, network: string, valid: set<(string, string)>, attempted: seq<Key>) {
    && Ascending(attempted, KeyLess)
    && (forall k :: k in attempted ==> k in Stale(before, network, valid))
    && (forall k, a :: k in Stale(before, network, valid) && a in attempted && KeyLess(k, a) ==> k in attempted)
    && (forall k :: k !in attempted ==> Lookup(now, k) == Lookup(before, k))
  }

  /** The collector's place after a page. */
  function PlaceAfter(round: Round, network: string, valid: set<(string, string)>, failing: bool): Pc {
    match round
    case Broken => Idle(Failure)
    case Finished => Idle(if failing then Failure else Collected)
    case Onward(last) => CollectList(network, valid, Some(last), failing)
  }

  /** Visits a page that is not empty and looks whether it was the last. */
  method CollectListed(node: Node, journal: AttachmentJournal, network: string, valid: set<(string, string)>, links: set<Plan>,
                       answers: nat -> Answers, call: nat, nextId: nat, after: Option<Key>, start: seq<Key>, records: seq<Record>,
                       ghost h: Host, ghost listings: nat -> Answers, ghost before: Table, ghost clean: bool)
    returns (attempted: seq<Key>, failures: nat, round: Round, alive: set<Plan>, steps: nat, next: nat)
    requires ValidProvider(node.site.provider) && Between(node, journal, before, network, valid, after, start)
    requires records == Listing(journal.table, network, after, MAX_LIST_RECORDS) && records != []
    requires var now := Drive(node, h, listings, answers, call);
      now == HostOf(now, journal, nextId, links, Pc.CollectRecord(Page(network, valid, records, records[|records| - 1].spec.key, |records| == MAX_LIST_RECORDS, !clean)))
    modifies journal
    ensures journal.View().Serving() == old(journal.View().Serving()) && !round.Broken?
    ensures round.Onward? ==>
      && Between(node, journal, before, network, valid, Some(round.last), attempted)
      && Past(before, network, Some(round.last)) < Past(before, network, after)
    ensures Done(before, journal.table, network, valid, attempted)
    ensures round.Finished? ==> forall k :: k in Stale(before, network, valid) ==> k in attempted
    ensures ListingsArrived(node, h, listings, answers, steps)
    ensures failures == 0 && old(Gone(start, journal.table)) ==> Gone(attempted, journal.table)
    ensures alive <= links
    ensures Drive(node, h, listings, answers, steps)
         == HostOf(Drive(node, h, listings, answers, call), journal, next, alive, PlaceAfter(round, network, valid, !clean || failures > 0))
    ensures old(Favourable(node, journal.View(), before, network, valid, start, clean, answers)) ==>
      Favourable(node, journal.View(), before, network, valid, attempted, clean && failures == 0, answers)
  {
    hide KeyLess, ValidTable, ValidKey, IsPage, Walked, Gone, Listing, PluginStep, Drive, Past, Stale, ListingsArrived, Favourable, Done;
    ghost var listed, keys := journal.table, KeysOf(records);
    ListedPage(node.site, listed, network, after);
    forall i | 0 <= i < |records| ensures Lookup(listed, records[i].spec.key) == Some(records[i]) {
      ListedRecord(node, listed, network, after, MAX_LIST_RECORDS, i);
    }
    attempted, failures, alive, steps, next :=
      CollectPage(node, journal, network, valid, links, answers, call, nextId, records, start, h, listings,
                  Drive(node, h, listings, answers, call).pc.page, before, after, clean);
    PageEnds(node, Drive(node, h, listings, answers, steps), answers(steps));
    DriveOn(node, h, listings, answers, steps);
    ArrivedOn(node, h, listings, answers, steps);
    steps := steps + 1;
    WalkIsDone(before, journal.table, network, valid, CursorAt(after, keys, |keys|), attempted);
    if |records| < MAX_LIST_RECORDS {
      forall k | k in Stale(before, network, valid) ensures k in attempted {
        LastPageCompletes(before, listed, journal.table, network, valid, after, keys, start, attempted, k);
      }
      round := Finished;
      return;
    }
    WalkStays(before, listed, network, valid, after, start);
    PastShrinks(before, listed, network, after, keys);
    assert keys[|keys| - 1] in keys;
    round := Onward(records[|records| - 1].spec.key);
  }

  /** Lists one page and visits it. */
  method CollectNext(node: Node, journal: AttachmentJournal, network: string, valid: set<(string, string)>, links: set<Plan>,
                     listings: nat -> Answers, answers: nat -> Answers, call: nat, nextId: nat, after: Option<Key>, start: seq<Key>,
                     ghost h: Host, ghost before: Table, ghost clean: bool)
    returns (attempted: seq<Key>, failures: nat, round: Round, alive: set<Plan>, steps: nat, next: nat)
    requires ValidProvider(node.site.provider) && Between(node, journal, before, network, valid, after, start)
    requires var now := Drive(node, h, listings, answers, call); now == HostOf(now, journal, nextId, links, CollectList(network, valid, after, !clean))
    modifies journal
    ensures journal.View().Serving() == old(journal.View().Serving())
    ensures round.Onward? ==>
      && Between(node, journal, before, network, valid, Some(round.last), attempted)
      && Past(before, network, Some(round.last)) < Past(before, network, after)
    ensures Done(before, journal.table, network, valid, attempted)
    ensures round.Finished? ==> forall k :: k in Stale(before, network, valid) ==> k in attempted
    ensures round.Broken? <==> listings(call).lost || !old(journal.View().Serving()) || !ValidIdentifier(network, MAX_IDENTIFIER_BYTES)
    ensures ListingsArrived(node, h, listings, answers, steps) <==> !listings(call).lost
    ensures failures == 0 && old(Gone(start, journal.table)) ==> Gone(attempted, journal.table)
    ensures alive <= links
    ensures Drive(node, h, listings, answers, steps)
         == HostOf(Drive(node, h, listings, answers, call), journal, next, alive, PlaceAfter(round, network, valid, !clean || failures > 0))
    ensures old(Favourable(node, journal.View(), before, network, valid, start, clean, answers)) ==>
      Favourable(node, journal.View(), before, network, valid, attempted, clean && failures == 0, answers)
  {
    hide KeyLess, ValidTable, ValidKey, ValidIdentifier, ValidListing, IsPage, Walked, Gone, Listing, PluginStep, Drive, Past, Stale, Transact,
      ListingsArrived, Favourable, Done;
    ghost var listed, host := journal.table, Drive(node, h, listings, answers, call);
    attempted, failures, round, alive := start, 0, Broken, links;
    var page;
    page, next := SendList(node, journal, network, after, listings(call), nextId, host);
    ListStep(node, host, listings(call), journal.table, page);
    DriveOn(node, h, listings, answers, call);
    WalkIsDone(before, listed, network, valid, after, start);
    ListingValid(network, after);
    ArrivedOn(node, h, listings, answers, call);
    steps := call + 1;
    if page.None? { return; }
    var records := page.value;
    ghost var keys := KeysOf(records);
    ListedPage(node.site, listed, network, after);
    if records == [] {
      forall k | k in Stale(before, network, valid) ensures k in attempted {
        LastPageCompletes(before, listed, listed, network, valid, after, keys, start, attempted, k);
      }
      round := Finished;
      return;
    }
    attempted, failures, round, alive, steps, next :=
      CollectListed(node, journal, network, valid, links, answers, steps, next, after, start, records, h, listings, before, clean);
  }

  /** One garbage collection: page after page, stale records of the network are attempted once
      each, in key order and without a gap, and no valid record is touched, although deletions
      change the listing underneath. It is complete, leaving none out, exactly when the journal
      serves, the network's name is valid and no listing is lost; without failures nothing stale
      remains. With answers that all go well, exactly the stale records whose pair cannot be
      built are left. It ends where the collector's plugin steps end. */
  method CollectGarbage(node: Node, journal: AttachmentJournal, network: string, valid: set<(string, string)>, links: set<Plan>,
                        listings: nat -> Answers, answers: nat -> Answers, nextId: nat, ghost h: Host)
    returns (attempted: seq<Key>, failures: nat, complete: bool, alive: set<Plan>, steps: nat, next: nat)
    requires ValidProvider(node.site.provider) && journal.site == node.site
    requires journal.revision <= U64_MAX && ValidTable(journal.site, journal.table)
    requires h == HostOf(h, journal, nextId, links, CollectList(network, valid, None, false))
    modifies journal
    ensures Ascending(attempted, KeyLess)
    ensures forall k :: k in attempted ==> k in old(Stale(journal.table, network, valid))
    ensures forall k, a :: k in old(Stale(journal.table, network, valid)) && a in attempted && KeyLess(k, a) ==> k in attempted
    ensures complete <==>
      ValidIdentifier(network, MAX_IDENTIFIER_BYTES) && old(journal.View().Serving()) && ListingsArrived(node, h, listings, answers, steps)
    ensures complete ==> forall k :: k in old(Stale(journal.table, network, valid)) ==> k in attempted
    ensures forall k :: k !in attempted ==> Lookup(journal.table, k) == old(Lookup(journal.table, k))
    ensures failures == 0 ==> forall k :: k in attempted ==> k !in journal.table
    ensures alive <= links
    ensures AllHealthy(answers) && old(journal.View().Serving() && journal.revision + 2 * |Stale(journal.table, network, valid)| <= U64_MAX) ==>
      Accounted(node, old(journal.table), journal.table, attempted, failures == 0)
    ensures Drive(node, h, listings, answers, steps) == HostOf(h, journal, next, alive, Idle(if complete && failures == 0 then Collected else Failure))
  {
    hide KeyLess, ValidTable, ValidKey, ValidIdentifier, Walked, Gone, PluginStep, Drive, Past, Stale, Accounted, ListingsArrived, Favourable;
    ghost var before, serving := journal.table, journal.View().Serving();
    ghost var calm := AllHealthy(answers) && serving && journal.revision + 2 * |Stale(before, network, valid)| <= U64_MAX;
    attempted, failures, complete, alive, steps, next := [], 0, false, links, 0, nextId;
    var after: Option<Key> := None;
    FreshWalk(before, network, valid);
    NoSteps(node, h, listings, answers);
    if calm { FreshAccount(node, journal.View(), network, valid, answers); }
    while true
      invariant Between(node, journal, before, network, valid, after, attempted)
      invariant journal.View().Serving() == serving
      invariant failures == 0 ==> Gone(attempted, journal.table)
      invariant alive <= links && !complete
      invariant Drive(node, h, listings, answers, steps) == HostOf(h, journal, next, alive, CollectList(network, valid, after, failures > 0))
      invariant calm ==> Favourable(node, journal.View(), before, network, valid, attempted, failures == 0, answers)
      decreases Past(before, network, after)
    {
      var failed, round;
      attempted, failed, round, alive, steps, next :=
        CollectNext(node, journal, network, valid, alive, listings, answers, steps, next, after, attempted, h, before, failures == 0);
      failures := failures + failed;
      if calm { FavourableAccount(node, journal.View(), before, network, valid, attempted, failures == 0, answers); }
      if failures == 0 { AllGone(attempted, journal.table); }
      match round
      case Broken => return;
      case Finished => complete := true; return;
      case Onward(last) => after := Some(last);
    }
  }

  lemma {:induction false} AllGone(attempted: seq<Key>, table: Table)
    requires Gone(attempted, table)
    ensures forall k :: k in attempted ==> k !in table
  {
  }

  lemma {:induction false} FreshAccount(node: Node, j: Journal, network: string, valid: set<(string, string)>, answers: nat -> Answers)
    requires AllHealthy(answers) && j.Serving() && j.revision + 2 * |Stale(j.table, network, valid)| <= U64_MAX
    ensures Favourable(node, j, j.table, network, valid, [], true, answers)
  {
    hide Stale;
  }

  lemma {:induction false} FavourableAccount(node: Node, j: Journal, before: Table, network: string, valid: set<(string, string)>,
                                             attempted: seq<Key>, clean: bool, answers: nat -> Answers)
    requires Favourable(node, j, before, network, valid, attempted, clean, answers)
    ensures Accounted(node, before, j.table, attempted, clean)
  {
  }

  /** The collector's listings are well formed exactly for a valid network name. */
  lemma {:induction false} ListingValid(network: string, after: Option<Key>)
    requires after.Some? ==> ValidKey(after.value)
    ensures ValidListing(network, after, MAX_LIST_RECORDS) <==> ValidIdentifier(network, MAX_IDENTIFIER_BYTES)
  {
  }

  /** One more step that is not a lost listing. */
  lemma {:induction false} ArrivedOn(node: Node, h: Host, listings: nat -> Answers, answers: nat -> Answers, n: nat)
    requires ValidProvider(node.site.provider) && !Drive(node, h, listings, answers, n).pc.Idle?
    ensures ListingsArrived(node, h, listings, answers, n + 1) <==>
      (Drive(node, h, listings, answers, n).pc.CollectList? ==> !listings(n).lost)
  {
    hide Drive;
    NoneLostBefore(node, h, listings, answers, n);
  }

  /** What the listing step makes of its answer. */
  lemma {:induction false} ListStep(node: Node, h: Host, a: Answers, table: Table, page: Option<seq<Record>>)
    requires ValidProvider(node.site.provider) && h.pc.CollectList? && table == h.agent.journal.table
    requires var op := List(h.pc.network, h.pc.after, MAX_LIST_RECORDS);
      && (page.Some? <==> Transact(node, h, op, a).1.Answer?)
      && (page.Some? ==> page.value == Listing(table, h.pc.network, h.pc.after, MAX_LIST_RECORDS))
    ensures var h' := Transact(node, h, List(h.pc.network, h.pc.after, MAX_LIST_RECORDS), a).0;
      PluginStep(node, h, a) == h'.(pc :=
        if page.None? then Idle(Failure)
        else if page.value == [] then Idle(if h.pc.failed then Failure else Collected)
        else Pc.CollectRecord(Page(h.pc.network, h.pc.valid, page.value, page.value[|page.value| - 1].spec.key,
                                   |page.value| == MAX_LIST_RECORDS, h.pc.failed)))
  {
    hide Transact, Listing;
  }

  lemma {:induction false} PageEnds(node: Node, h: Host, a: Answers)
    requires ValidProvider(node.site.provider) && h.pc.CollectRecord? && h.pc.page.rest == []
    ensures var page := h.pc.page;
      PluginStep(node, h, a) == h.(pc := if page.full then CollectList(page.network, page.valid, Some(page.last), page.failed)
                                         else Idle(if page.failed then Failure else Collected))
  {
  }

  lemma {:induction false} FreshWalk(before: Table, network: string, valid: set<(string, string)>)
    ensures Walked(before, before, network, valid, None, []) && Gone([], before)
  {
  }

  lemma {:induction false} WalkStays(before: Table, now: Table, network: string, valid: set<(string, string)>, cursor: Option<Key>, attempted: seq<Key>)
    requires Walked(before, now, network, valid, cursor, attempted)
    ensures forall k :: k in now ==> k in before
  {
  }

  lemma {:induction false} WalkIsDone(before: Table, now: Table, network: string, valid: set<(string, string)>, cursor: Option<Key>, attempted: seq<Key>)
    requires Walked(before, now, network, valid, cursor, attempted)
    ensures Done(before, now, network, valid, attempted)
  {
    hide KeyLess;
    KeyOrder();
  }
}
