/** A restart brings the fence back: what a node publishes after it, and how a deletion
    disarms it. */
module LocalityReboot {
  import opened Results
  import opened Attachments
  import opened JournalModel
  import opened Locality
  import opened LocalitySafety
  import opened BankPublishers
  import opened LocalityPublication

  /** Claiming the maps, opening the journal, enrolling a gate and selecting. */
  function Reboot(chosen: set<Key>): seq<Event> { [Claim(Withdrawn), Boot, InstallGate(Persisted), Refresh(chosen, false)] }

  /** The node as its journal file lets it start, the gate enrolled and empty. */
  function Enrolling(w: World): World {
    var id := w.agent.nextId + 1;
    w.(agent := Runs.World(true, Journal(w.agent.disk.table, Some(id), 0, Some(id), true), Image(w.agent.disk.table, true), id + 1),
       claimed := true, published := None, gate := Gate(id, map[], 0, false), registered := true)
  }

  lemma {:induction false} Opens(site: Site, w: World)
    requires ValidProvider(site.provider) && Runs.Inv(site, w.agent) && !w.agent.open && (w.claimed ==> w.published.None?)
    ensures Next(site, Next(site, w, Claim(Withdrawn)), Boot) ==
      w.(claimed := true, published := None,
         agent := Runs.World(true, OpenJournal(w.agent.disk, w.agent.nextId), w.agent.disk, w.agent.nextId + 1))
  {
    hide Runs.Inv, Runs.JournalDocument.Load, Runs.JournalDocument.Encode;
    Runs.LoadsAgain(site, w.agent);
  }

  lemma {:induction false} Enrolls(site: Site, w: World)
    requires ValidProvider(site.provider) && Inv(site, w) && !w.agent.open
    ensures Next(site, Next(site, Next(site, w, Claim(Withdrawn)), Boot), InstallGate(Persisted)) == Enrolling(w)
  {
    hide Runs.Inv, Guarded, GateSound, BanksSound, Enrolled;
    Opens(site, w);
  }

  /** Nothing selected before the restart passes for the opened journal's. */
  lemma {:induction false} NoStaleSelection(site: Site, w: World)
    requires Inv(site, w)
    ensures !SelectionUnmoved(Enrolling(w))
  {
    hide Runs.Inv, Guarded, GateSound, SelectionSound, Enrolled, BankSound, Whole;
  }

  lemma {:induction false} RunThree(site: Site, w: World, a: Event, b: Event, c: Event, rest: seq<Event>)
    requires ValidProvider(site.provider)
    ensures Run(site, w, [a, b, c] + rest) == Run(site, Next(site, Next(site, Next(site, w, a), b), c), rest)
  {
    hide Next;
    var events := [a, b, c] + rest;
    assert events[1..][1..][1..] == rest;
    assert events[1..][0] == b && events[1..][1..][0] == c;
    assert Run(site, w, events) == Run(site, Next(site, w, a), events[1..]);
    assert Run(site, Next(site, w, a), events[1..]) == Run(site, Next(site, Next(site, w, a), b), events[1..][1..]);
  }

  lemma {:induction false} RunOne(site: Site, w: World, e: Event)
    requires ValidProvider(site.provider)
    ensures Run(site, w, [e]) == Next(site, w, e)
  {
    hide Next;
    assert [e][1..] == [];
  }

  lemma {:induction false} RunReboot(site: Site, w: World, chosen: set<Key>)
    requires ValidProvider(site.provider) && Inv(site, w) && !w.agent.open
    ensures Run(site, w, Reboot(chosen)) == StepRefresh(Enrolling(w), chosen, false)
  {
    hide Inv, Enrolling, Run, Next;
    Enrolls(site, w);
    assert Reboot(chosen) == [Claim(Withdrawn), Boot, InstallGate(Persisted)] + [Refresh(chosen, false)];
    RunThree(site, w, Claim(Withdrawn), Boot, InstallGate(Persisted), [Refresh(chosen, false)]);
    RunOne(site, Enrolling(w), Refresh(chosen, false));
    Refreshes(site, Enrolling(w), chosen);
  }

  lemma {:induction false} Refreshes(site: Site, w: World, chosen: set<Key>)
    requires ValidProvider(site.provider)
    ensures Next(site, w, Refresh(chosen, false)) == StepRefresh(w, chosen, false)
  {
    hide StepRefresh;
  }

  lemma {:induction false} RebootedPublishable(site: Site, w: World, chosen: set<Key>)
    requires ValidProvider(site.provider) && Inv(site, w) && !w.agent.open
    requires 0 < |Selected(w.agent.disk.table, chosen)| <= U64_MAX
    ensures var n := StepRefresh(Enrolling(w), chosen, false);
      Publishable(n) && n.selection.value.records == Selected(w.agent.disk.table, chosen) && n.gate == Enrolling(w).gate
  {
    hide Selected, ValidTable, GateSound, BanksSound, Guarded, Runs.Near;
    NoStaleSelection(site, w);
    RefreshSelects(site, Enrolling(w), chosen);
  }

  /** Whatever happened before, a closed node that boots without failures, selects and polls
      three times publishes one live endpoint for exactly the chosen records its journal file
      holds Ready, bound to a workload and a nonzero nonce. */
  lemma {:induction false} RebootRepublishes(site: Site, events: seq<Event>, chosen: set<Key>, a: Answers)
    requires ValidProvider(site.provider)
    requires !Run(site, FirstBoot, events).agent.open
    requires 0 < |Selected(Run(site, FirstBoot, events).agent.disk.table, chosen)| <= if a.good < U64_MAX then a.good else U64_MAX
    requires a.finished && a.first == Withdrawn && a.arming == Armed
    ensures var w := Run(site, FirstBoot, events); var n := Poll(Poll(Poll(Run(site, w, Reboot(chosen)), a), a), a);
      && n.published.Some? && n.published.value.gate == n.gate.id && n.agent.journal.hook == Some(n.gate.id)
      && n.agent.journal.table == w.agent.disk.table
      && |n.published.value.endpoints| == |Selected(w.agent.disk.table, chosen)|
      && (forall e :: e in n.published.value.endpoints ==> Live(n.gate, e))
      && (forall r :: Published(n.published.value, r) <==>
            && Lookup(w.agent.disk.table, r.spec.key) == Some(r) && r.spec.key in chosen
            && r.phase == Ready && r.spec.workloadUid.Some? && r.token.Some? && r.token.value != 0)
  {
    hide Run, Selected, Enrolling, Inv, Publishable, StepRefresh, Poll, Published, Live, Reboot;
    assert Inv(site, FirstBoot) by { FirstIsSafe(site); }
    RunSafe(site, FirstBoot, events);
    var w := Run(site, FirstBoot, events);
    RunReboot(site, w, chosen);
    RebootedPublishable(site, w, chosen);
    var rebooted := StepRefresh(Enrolling(w), chosen, false);
    EnrolledAgent(w, chosen);
    SelectionIsPublished(rebooted, a);
    DiskIsValid(site, w);
    var n := Poll(Poll(Poll(rebooted, a), a), a);
    forall e | e in n.published.value.endpoints ensures Live(n.gate, e) {
      var i :| 0 <= i < |n.published.value.endpoints| && n.published.value.endpoints[i] == e;
    }
    forall r ensures Published(n.published.value, r) <==>
        Lookup(w.agent.disk.table, r.spec.key) == Some(r) && r.spec.key in chosen && Selectable(r) {
      SelectedExactly(site, w.agent.disk.table, chosen, r);
      PublishedRecords(n.published.value, Selected(w.agent.disk.table, chosen), r);
    }
  }

  ghost predicate Published(bank: Bank, r: Record) { exists e :: e in bank.endpoints && e.record == r }

  lemma {:induction false} PublishedRecords(bank: Bank, records: seq<Record>, r: Record)
    requires |bank.endpoints| == |records| && forall i :: 0 <= i < |records| ==> bank.endpoints[i].record == records[i]
    ensures Published(bank, r) <==> r in records
  {
    if r in records {
      var i :| 0 <= i < |records| && records[i] == r;
      assert bank.endpoints[i] in bank.endpoints;
    }
  }

  lemma {:induction false} DiskIsValid(site: Site, w: World)
    requires Inv(site, w)
    ensures ValidTable(site, w.agent.disk.table)
  {
    hide ValidTable, GateSound, BanksSound, Guarded, Runs.Near;
  }

  lemma {:induction false} EnrolledAgent(w: World, chosen: set<Key>)
    ensures var n := StepRefresh(Enrolling(w), chosen, false);
      n.agent.journal.hook == Some(n.gate.id) && n.agent.journal.table == w.agent.disk.table
  {
    hide Selected;
  }

  /** A deletion the journal records takes the attachment's nonce out of the gate first, so
      every bank that carries it finds it dead. */
  lemma {:induction false} DeleteDisarms(site: Site, w: World, key: Key, env: Env, partial: bool)
    requires ValidProvider(site.provider) && w.agent.open && GateMatches(w) && w.agent.journal.revision < U64_MAX && ValidKey(key)
    requires key in w.agent.journal.table && w.agent.journal.table[key].phase == Ready && w.agent.journal.table[key].token.Some?
    requires !env.hookFails && env.persist == Persisted
    ensures var n := Next(site, w, Transact(CURRENT_SCHEMA, BeginDelete(key), env, partial)); var record := w.agent.journal.table[key];
      && n.agent.journal.table == w.agent.journal.table[key := record.(phase := Deleting)] && n.agent.disk.table == n.agent.journal.table
      && n.gate == w.gate.(live := w.gate.live - {record.token.value}) && n.published == w.published
      && forall e: Endpoint :: e.record == record ==> !Live(n.gate, e)
  {
    hide ValidKey, LegacyBlocked;
  }

  /** The life of a node's first attachment, up to a crash. */
  function FirstAttachment(spec: Spec, env: Env): seq<Event> {
    [Claim(Withdrawn), Boot, InstallGate(Persisted)]
    + [Transact(CURRENT_SCHEMA, Prepare(spec), env, false), Transact(CURRENT_SCHEMA, Commit(spec.key), env, false), Crash]
  }

  function FirstRecord(site: Site, spec: Spec, env: Env): Record
    requires ValidProvider(site.provider) && Allocate(site.provider, map[]).Ok?
  {
    Record(spec, site.hostName(spec.key), Allocate(site.provider, map[]).value, Ready, env.nonce)
  }

  lemma {:induction false} Prepares(site: Site, w: World, spec: Spec, env: Env)
    requires ValidProvider(site.provider) && ValidSpec(spec) && spec.workloadUid.Some? && Allocate(site.provider, map[]).Ok?
    requires env.nonce.Some? && env.nonce.value != 0 && env.persist == Persisted
    requires w.agent.open && w.agent.journal.table == map[] && w.agent.journal.hook.Some? && w.agent.journal.revision < U64_MAX - 1
    ensures var n := Next(site, w, Transact(CURRENT_SCHEMA, Prepare(spec), env, false));
      && n.agent.open && n.agent.journal.table == map[spec.key := FirstRecord(site, spec, env).(phase := Preparing)]
      && n.agent.journal.hook.Some? && n.agent.journal.revision == w.agent.journal.revision + 1
  {
    hide ValidSpec, LegacyBlocked, Allocate;
  }

  lemma {:induction false} Commits(site: Site, w: World, record: Record, env: Env)
    requires ValidProvider(site.provider) && ValidKey(record.spec.key) && record.phase == Ready && env.persist == Persisted
    requires w.agent.open && w.agent.journal.table == map[record.spec.key := record.(phase := Preparing)]
    requires w.agent.journal.hook.Some? && w.agent.journal.revision < U64_MAX
    ensures var n := Next(site, Next(site, w, Transact(CURRENT_SCHEMA, Commit(record.spec.key), env, false)), Crash);
      !n.agent.open && n.agent.disk.table == map[record.spec.key := record]
  {
    hide ValidKey, LegacyBlocked;
    assert w.agent.journal.table[record.spec.key := record] == map[record.spec.key := record];
  }

  lemma {:induction false} SelectsOne(record: Record)
    requires Selectable(record)
    ensures Selected(map[record.spec.key := record], {record.spec.key}) == [record]
  {
    var table, key := map[record.spec.key := record], record.spec.key;
    assert (set k | k in table && k in {key} && Selectable(table[k])) == {key};
    var order := SortedKeys({key});
    assert order == [key];
  }

  lemma {:induction false} FirstIsReady(site: Site, spec: Spec, env: Env)
    requires ValidProvider(site.provider) && ValidSpec(spec) && spec.workloadUid.Some? && Allocate(site.provider, map[]).Ok?
    requires env.nonce.Some? && env.nonce.value != 0 && env.persist == Persisted
    ensures var w := Run(site, FirstBoot, FirstAttachment(spec, env));
      !w.agent.open && w.agent.disk.table == map[spec.key := FirstRecord(site, spec, env)]
  {
    hide Run, Next, Inv;
    assert Inv(site, FirstBoot) by { FirstIsSafe(site); }
    var prepare, commit := Transact(CURRENT_SCHEMA, Prepare(spec), env, false), Transact(CURRENT_SCHEMA, Commit(spec.key), env, false);
    Enrolls(site, FirstBoot);
    RunThree(site, FirstBoot, Claim(Withdrawn), Boot, InstallGate(Persisted), [prepare, commit, Crash]);
    RunThree(site, Enrolling(FirstBoot), prepare, commit, Crash, []);
    assert [prepare, commit, Crash] + [] == [prepare, commit, Crash];
    Prepares(site, Enrolling(FirstBoot), spec, env);
    Commits(site, Next(site, Enrolling(FirstBoot), prepare), FirstRecord(site, spec, env), env);
    RunNothing(site, Next(site, Next(site, Next(site, Enrolling(FirstBoot), prepare), commit), Crash));
  }

  lemma {:induction false} RunNothing(site: Site, w: World)
    requires ValidProvider(site.provider)
    ensures Run(site, w, []) == w
  {
  }

  /** The first attachment of an empty node reaches the journal file Ready, so the boot after
      the crash publishes it, alone and live. */
  lemma {:induction false} FirstAttachmentIsPublished(site: Site, spec: Spec, env: Env, a: Answers)
    requires ValidProvider(site.provider) && ValidSpec(spec) && spec.workloadUid.Some? && Allocate(site.provider, map[]).Ok?
    requires env.nonce.Some? && env.nonce.value != 0 && env.persist == Persisted
    requires a.finished && a.good > 0 && a.first == Withdrawn && a.arming == Armed
    ensures var w := Run(site, FirstBoot, FirstAttachment(spec, env)); var n := Poll(Poll(Poll(Run(site, w, Reboot({spec.key})), a), a), a);
      && n.published.Some? && |n.published.value.endpoints| == 1
      && n.published.value.endpoints[0].record == FirstRecord(site, spec, env) && Live(n.gate, n.published.value.endpoints[0])
  {
    hide Run, Poll, Reboot, FirstAttachment, Selected, Live;
    FirstIsReady(site, spec, env);
    var record, w := FirstRecord(site, spec, env), Run(site, FirstBoot, FirstAttachment(spec, env));
    SelectsOne(record);
    RebootRepublishes(site, FirstAttachment(spec, env), {spec.key}, a);
    var n := Poll(Poll(Poll(Run(site, w, Reboot({spec.key})), a), a), a);
    assert Published(n.published.value, record);
    assert n.published.value.endpoints[0] in n.published.value.endpoints;
  }
}
