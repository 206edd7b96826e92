/** What an ADD achieves when nothing fails: exactly when it succeeds, what it then leaves, and
    what its rollback leaves. */
module HealthyCommands {
  import opened Results
  import opened Attachments
  import opened JournalModel
  import opened Lifecycle
  import opened PluginSteps
  import opened CommandReports

  /** The agent's table, whether the file holds it too, links, queue, and how many more
      revisions there is room for. */
  datatype Scene = Scene(table: Table, saved: bool, links: set<Plan>, queue: map<Key, nat>, room: nat)

  /** A running, serving agent in this scene, and the command at `pc`. */
  ghost predicate Stands(node: Node, h: Host, s: Scene, pc: Pc) {
    && ValidTable(node.site, s.table)
    && h.agent.open && h.agent.journal.Serving() && h.agent.journal.table == s.table && h.agent.journal.revision + s.room <= U64_MAX
    && (s.saved ==> h.agent.disk.table == s.table)
    && h.links == s.links && h.queue == s.queue && h.pc == pc
  }

  /** The scene after a change of the table, which reaches the file. */
  function Moved(s: Scene, table: Table): Scene
    requires s.room > 0
  {
    s.(table := table, saved := s.saved || table != s.table, room := s.room - 1)
  }

  /** What the journal makes of a request that meets no failure. */
  lemma {:induction false} HealthyApply(site: Site, j: Journal, disk: Image, op: Operation, env: Env)
    requires ValidProvider(site.provider) && j.Serving() && j.revision < U64_MAX && !env.hookFails && env.persist == Persisted
    ensures var effect := OperationEffect(site, j.table, op, CURRENT_SCHEMA, env.nonce); var a := Apply(site, j, disk, CURRENT_SCHEMA, op, env);
      && (effect.Err? ==> a.journal == j && a.disk == disk && a.reply.Err?)
      && (effect.Ok? ==>
            && a.reply == Ok(effect.value.attachment) && a.journal.table == effect.value.table && a.journal.Serving() && a.journal.revision <= j.revision + 1
            && (if effect.value.table == j.table then a.disk == disk else a.disk.table == effect.value.table))
  {
    hide OperationEffect, LegacyBlocked;
    if OperationEffect(site, j.table, op, CURRENT_SCHEMA, env.nonce).Ok? { SameLookup(site, j.table, op, env.nonce); }
  }

  /** A request that meets no failure takes effect, and its change reaches the file. */
  lemma {:induction false} HealthyTransact(node: Node, h: Host, op: Operation, a: Answers, s: Scene, pc: Pc)
    requires ValidProvider(node.site.provider) && Stands(node, h, s, pc) && s.room > 0 && Healthy(a)
    ensures var effect := OperationEffect(node.site, s.table, op, CURRENT_SCHEMA, a.env.nonce);
      var (h', reply) := Transact(node, h, op, a);
      && (effect.Err? ==> reply == Rejected && Stands(node, h', s, pc))
      && (effect.Ok? ==> reply == Answer(effect.value.attachment) && Stands(node, h', Moved(s, effect.value.table), pc))
  {
    hide OperationEffect, ValidTable, Apply, LegalMove;
    HealthyApply(node.site, h.agent.journal, h.agent.disk, op, a.env.(newId := h.agent.nextId));
    Runs.EffectIsMove(node.site, s.table, op, CURRENT_SCHEMA, a.env.nonce);
  }

  /** A table that changes changes under the operation's own key. */
  lemma {:induction false} SameLookup(site: Site, table: Table, op: Operation, nonce: Option<Token>)
    requires ValidProvider(site.provider) && OperationEffect(site, table, op, CURRENT_SCHEMA, nonce).Ok?
    ensures var after := OperationEffect(site, table, op, CURRENT_SCHEMA, nonce).value.table;
      after != table ==> MutationKey(op).Some? && Lookup(after, MutationKey(op).value) != Lookup(table, MutationKey(op).value)
  {
    hide Allocate, ValidSpec, ValidKey, ValidListing;
    if op.BeginAbort? && op.key in table && table[op.key].phase == Aborting { assert table[op.key := table[op.key]] == table; }
    if op.BeginDelete? && op.key in table && table[op.key].phase == Deleting { assert table[op.key := table[op.key]] == table; }
  }

  /** Less room, or less known of the file, still stands. */
  lemma {:induction false} StandsLess(node: Node, h: Host, s: Scene, pc: Pc, room: nat)
    requires Stands(node, h, s, pc) && room <= s.room
    ensures Stands(node, h, s.(room := room), pc)
  {
    hide ValidTable;
  }

  /** The host after `n` steps, each meeting its own answer. */
  ghost function Go(node: Node, h: Host, answers: nat -> Answers, n: nat): Host
    requires ValidProvider(node.site.provider)
  {
    Drive(node, h, answers, answers, n)
  }

  lemma {:induction false} GoOn(node: Node, h: Host, answers: nat -> Answers, n: nat)
    requires ValidProvider(node.site.provider)
    ensures Go(node, h, answers, 0) == h
    ensures Go(node, h, answers, n + 1) == PluginStep(node, Go(node, h, answers, n), answers(n))
  {
    hide PluginStep;
  }

  // The steps of an ADD.

  /** A command on a network with nothing queued starts its own lifecycle. */
  lemma {:induction false} Starts(node: Node, h: Host, s: Scene, cmd: Command, a: Answers)
    requires ValidProvider(node.site.provider) && Stands(node, h, s, DrainList(cmd)) && !a.fails && (cmd.Add? || cmd.Del?)
    requires forall k :: k in s.queue ==> k.network != NetworkOf(cmd)
    ensures Stands(node, PluginStep(node, h, a), s, if cmd.Add? then AddInspect(cmd.spec) else DeleteBegin(cmd.key, OfCommand(cmd.key)))
  {
    hide ValidTable, SortedKeys;
    assert QueuedIn(h, NetworkOf(cmd)) == {};
    assert SortedKeys(QueuedIn(h, NetworkOf(cmd))) == [];
  }

  lemma {:induction false} Inspects(node: Node, h: Host, s: Scene, spec: Spec, a: Answers)
    requires ValidProvider(node.site.provider) && Stands(node, h, s, AddInspect(spec)) && s.room > 0 && Healthy(a) && ValidKey(spec.key)
    ensures Stands(node, PluginStep(node, h, a), s.(room := s.room - 1),
      if spec.key !in s.table then AddPrepare(spec)
      else if !Fits(s.table[spec.key].spec, spec) then Idle(Failure)
      else match s.table[spec.key].phase
        case Ready => AddVerify(s.table[spec.key])
        case Preparing => AddLink(s.table[spec.key])
        case Aborting => AddRecover(spec, s.table[spec.key])
        case Deleting => Idle(Failure))
  {
    hide Transact, ValidTable, ValidKey, Fits, Spec.AcceptsReplay;
    HealthyTransact(node, h, Inspect(spec.key), a, s, h.pc);
    if spec.key in s.table { ReplayFits(s.table[spec.key].spec, spec); }
  }

  lemma {:induction false} Verifies(node: Node, h: Host, s: Scene, record: Record, a: Answers)
    requires ValidProvider(node.site.provider) && Stands(node, h, s, AddVerify(record)) && !a.fails
    ensures Stands(node, PluginStep(node, h, a), s, Idle(if PlanOf(record) in s.links then Added(record) else Failure))
  {
    hide ValidTable, PlanOf;
  }

  /** The nonce a bound workload needs. */
  predicate NonceFits(table: Table, spec: Spec, nonce: Option<Token>) {
    spec.workloadUid.Some? ==> nonce.Some? && nonce.value != 0 && forall k :: k in table ==> table[k].token != nonce
  }

  /** Interface and addresses for one more record. */
  predicate Grantable(site: Site, table: Table, spec: Spec)
    requires ValidProvider(site.provider)
  {
    (forall k :: k in table ==> table[k].hostInterface != site.hostName(spec.key)) && Allocate(site.provider, table).Ok?
  }

  /** The record a fresh ADD is to end with. */
  function NewRecord(site: Site, table: Table, spec: Spec, nonce: Option<Token>): Record
    requires ValidProvider(site.provider) && Grantable(site, table, spec)
  {
    Record(spec, site.hostName(spec.key), Allocate(site.provider, table).value, Ready, if spec.workloadUid.Some? then nonce else None)
  }

  lemma {:induction false} Prepares(node: Node, h: Host, s: Scene, spec: Spec, a: Answers)
    requires ValidProvider(node.site.provider) && Stands(node, h, s, AddPrepare(spec)) && s.room > 0 && Healthy(a)
    requires ValidSpec(spec) && spec.key !in s.table && NonceFits(s.table, spec, a.env.nonce)
    ensures if Grantable(node.site, s.table, spec) then
        var r := NewRecord(node.site, s.table, spec, a.env.nonce).(phase := Preparing);
        Stands(node, PluginStep(node, h, a), Moved(s, s.table[spec.key := r]), AddLink(r))
      else Stands(node, PluginStep(node, h, a), s, Idle(Failure))
  {
    hide Transact, ValidTable, ValidSpec, Allocate;
    HealthyTransact(node, h, Prepare(spec), a, s, h.pc);
  }

  /** The pair is created, or the link layer refuses its plan or fails. */
  lemma {:induction false} LinksPair(node: Node, h: Host, s: Scene, record: Record, a: Answers)
    requires ValidProvider(node.site.provider) && Stands(node, h, s, AddLink(record))
    ensures var plan := PlanOf(record); var n := PluginStep(node, h, a);
      if !node.buildable(plan) then Stands(node, n, s, AbortBegin(record, false))
      else if a.fails then Stands(node, n, s.(links := if a.acts then s.links + {plan} else s.links), AbortBegin(record, true))
      else Stands(node, n, s.(links := s.links + {plan}), AddRoutes(record))
  {
    hide ValidTable, PlanOf;
  }

  lemma {:induction false} Routes(node: Node, h: Host, s: Scene, record: Record, a: Answers)
    requires ValidProvider(node.site.provider) && Stands(node, h, s, AddRoutes(record))
    ensures Stands(node, PluginStep(node, h, a), s, if a.fails then AbortBegin(record, true) else AddCommit(record))
  {
    hide ValidTable;
  }

  lemma {:induction false} Commits(node: Node, h: Host, s: Scene, record: Record, a: Answers)
    requires ValidProvider(node.site.provider) && Stands(node, h, s, AddCommit(record)) && s.room > 0 && Healthy(a)
    requires Lookup(s.table, record.spec.key) == Some(record) && record.phase == Preparing
    ensures var ready := record.(phase := Ready);
      Stands(node, PluginStep(node, h, a), Moved(s, s.table[record.spec.key := ready]), Idle(Added(ready)))
  {
    hide Transact, ValidTable, ValidKey;
    TableKeyIsValid(node.site, s.table, record.spec.key);
    HealthyTransact(node, h, Commit(record.spec.key), a, s, h.pc);
  }

  lemma {:induction false} TableKeyIsValid(site: Site, table: Table, key: Key)
    requires ValidTable(site, table) && key in table
    ensures ValidKey(key) && table[key].spec.key == key
  {
    hide ValidKey;
    assert ValidRecord(site, key, table[key]);
  }

  // The steps of its rollback and of recovery.

  lemma {:induction false} BeginsAbort(node: Node, h: Host, s: Scene, record: Record, unlink: bool, a: Answers)
    requires ValidProvider(node.site.provider) && Stands(node, h, s, AbortBegin(record, unlink)) && s.room > 0 && Healthy(a)
    requires Lookup(s.table, record.spec.key) == Some(record) && record.phase == Preparing
    ensures Stands(node, PluginStep(node, h, a), Moved(s, s.table[record.spec.key := record.(phase := Aborting)]),
                   if unlink then AbortUnlink(record) else AbortComplete(record.spec.key))
  {
    hide Transact, ValidTable, ValidKey;
    TableKeyIsValid(node.site, s.table, record.spec.key);
    HealthyTransact(node, h, BeginAbort(record.spec.key), a, s, h.pc);
  }

  lemma {:induction false} Unlinks(node: Node, h: Host, s: Scene, record: Record, a: Answers)
    requires ValidProvider(node.site.provider) && Stands(node, h, s, AbortUnlink(record)) && !a.fails && node.buildable(PlanOf(record))
    ensures Stands(node, PluginStep(node, h, a), s.(links := s.links - {PlanOf(record)}), AbortComplete(record.spec.key))
  {
    hide ValidTable;
  }

  lemma {:induction false} CompletesAbort(node: Node, h: Host, s: Scene, key: Key, a: Answers)
    requires ValidProvider(node.site.provider) && Stands(node, h, s, AbortComplete(key)) && s.room > 0 && Healthy(a)
    requires key in s.table && s.table[key].phase == Aborting
    ensures Stands(node, PluginStep(node, h, a), Moved(s, s.table - {key}), Idle(Failure))
  {
    hide Transact, ValidTable, ValidKey;
    TableKeyIsValid(node.site, s.table, key);
    HealthyTransact(node, h, CompleteAbort(key), a, s, h.pc);
  }

  lemma {:induction false} Recovers(node: Node, h: Host, s: Scene, spec: Spec, record: Record, a: Answers)
    requires ValidProvider(node.site.provider) && Stands(node, h, s, AddRecover(spec, record)) && !a.fails
    ensures if node.buildable(PlanOf(record)) then Stands(node, PluginStep(node, h, a), s.(links := s.links - {PlanOf(record)}), AddRecoverComplete(spec))
            else Stands(node, PluginStep(node, h, a), s, Idle(Failure))
  {
    hide ValidTable;
  }

  lemma {:induction false} CompletesRecovery(node: Node, h: Host, s: Scene, spec: Spec, a: Answers)
    requires ValidProvider(node.site.provider) && Stands(node, h, s, AddRecoverComplete(spec)) && s.room > 0 && Healthy(a)
    requires spec.key in s.table && s.table[spec.key].phase == Aborting
    ensures Stands(node, PluginStep(node, h, a), Moved(s, s.table - {spec.key}), AddPrepare(spec))
  {
    hide Transact, ValidTable, ValidKey;
    TableKeyIsValid(node.site, s.table, spec.key);
    HealthyTransact(node, h, CompleteAbort(spec.key), a, s, h.pc);
  }

  // Whole commands.

  /** Link, routes and commit of a prepared record. */
  lemma {:induction false} FinishesAdd(node: Node, h: Host, answers: nat -> Answers, n: nat, s: Scene, record: Record)
    requires ValidProvider(node.site.provider) && Stands(node, Go(node, h, answers, n), s, AddLink(record)) && s.room > 0
    requires Healthy(answers(n)) && Healthy(answers(n + 1)) && Healthy(answers(n + 2))
    requires Lookup(s.table, record.spec.key) == Some(record) && record.phase == Preparing && node.buildable(PlanOf(record))
    ensures var ready := record.(phase := Ready);
      Stands(node, Go(node, h, answers, n + 3), Moved(s.(links := s.links + {PlanOf(record)}), s.table[record.spec.key := ready]), Idle(Added(ready)))
  {
    hide Stands, PluginStep, Go, PlanOf;
    GoOn(node, h, answers, n);
    GoOn(node, h, answers, n + 1);
    GoOn(node, h, answers, n + 2);
    LinksPair(node, Go(node, h, answers, n), s, record, answers(n));
    Routes(node, Go(node, h, answers, n + 1), s.(links := s.links + {PlanOf(record)}), record, answers(n + 1));
    Commits(node, Go(node, h, answers, n + 2), s.(links := s.links + {PlanOf(record)}), record, answers(n + 2));
  }

  /** The rollback of a prepared record whose pair may exist. */
  lemma {:induction false} RollsBack(node: Node, h: Host, answers: nat -> Answers, n: nat, s: Scene, record: Record)
    requires ValidProvider(node.site.provider) && Stands(node, Go(node, h, answers, n), s, AbortBegin(record, true)) && s.room > 1
    requires Healthy(answers(n)) && Healthy(answers(n + 1)) && Healthy(answers(n + 2))
    requires Lookup(s.table, record.spec.key) == Some(record) && record.phase == Preparing && node.buildable(PlanOf(record))
    ensures Stands(node, Go(node, h, answers, n + 3), Scene(s.table - {record.spec.key}, true, s.links - {PlanOf(record)}, s.queue, 0), Idle(Failure))
  {
    hide Stands, PluginStep, Go, PlanOf;
    GoOn(node, h, answers, n);
    GoOn(node, h, answers, n + 1);
    GoOn(node, h, answers, n + 2);
    var key := record.spec.key;
    BeginsAbort(node, Go(node, h, answers, n), s, record, true, answers(n));
    var begun := Moved(s, s.table[key := record.(phase := Aborting)]);
    Unlinks(node, Go(node, h, answers, n + 1), begun, record, answers(n + 1));
    var unlinked := begun.(links := begun.links - {PlanOf(record)});
    CompletesAbort(node, Go(node, h, answers, n + 2), unlinked, key, answers(n + 2));
    assert s.table[key := record.(phase := Aborting)] - {key} == s.table - {key};
    StandsLess(node, Go(node, h, answers, n + 3), Moved(unlinked, unlinked.table - {key}), Idle(Failure), 0);
  }

  /** The rollback of a record whose plan the link layer refuses. */
  lemma {:induction false} RollsBackUnbuilt(node: Node, h: Host, answers: nat -> Answers, n: nat, s: Scene, record: Record)
    requires ValidProvider(node.site.provider) && Stands(node, Go(node, h, answers, n), s, AddLink(record)) && s.room > 1
    requires Healthy(answers(n)) && Healthy(answers(n + 1)) && Healthy(answers(n + 2))
    requires Lookup(s.table, record.spec.key) == Some(record) && record.phase == Preparing && !node.buildable(PlanOf(record))
    ensures Stands(node, Go(node, h, answers, n + 3), Scene(s.table - {record.spec.key}, true, s.links, s.queue, 0), Idle(Failure))
  {
    hide Stands, PluginStep, Go, PlanOf;
    GoOn(node, h, answers, n);
    GoOn(node, h, answers, n + 1);
    GoOn(node, h, answers, n + 2);
    var key := record.spec.key;
    LinksPair(node, Go(node, h, answers, n), s, record, answers(n));
    BeginsAbort(node, Go(node, h, answers, n + 1), s, record, false, answers(n + 1));
    var begun := Moved(s, s.table[key := record.(phase := Aborting)]);
    CompletesAbort(node, Go(node, h, answers, n + 2), begun, key, answers(n + 2));
    assert s.table[key := record.(phase := Aborting)] - {key} == s.table - {key};
    StandsLess(node, Go(node, h, answers, n + 3), Moved(begun, begun.table - {key}), Idle(Failure), 0);
  }

  /** How an ADD ended: what it reports, and table, links and queue. */
  ghost predicate Ends(h: Host, report: Report, table: Table, links: set<Plan>, queue: map<Key, nat>) {
    h.pc == Idle(report) && h.agent.open && h.agent.journal.table == table && h.links == links && h.queue == queue
  }

  lemma {:induction false} EndsBy(node: Node, h: Host, answers: nat -> Answers, n: nat, m: nat, s: Scene, report: Report)
    requires ValidProvider(node.site.provider) && Stands(node, Go(node, h, answers, n), s, Idle(report)) && n <= m
    ensures Go(node, h, answers, m) == Go(node, h, answers, n) && Ends(Go(node, h, answers, m), report, s.table, s.links, s.queue)
    ensures s.saved ==> Go(node, h, answers, m).agent.disk.table == s.table
  {
    hide ValidTable;
    EndedStays(node, h, answers, answers, n, m);
  }

  /** Every answer is well, and every nonce is one this workload can be given. */
  ghost predicate Working(table: Table, spec: Spec, answers: nat -> Answers) {
    forall n :: Healthy(answers(n)) && NonceFits(table - {spec.key}, spec, answers(n).env.nonce)
  }

  /** From Prepare on: the ADD succeeds exactly if interface and addresses can be granted and the
      plan built, and otherwise leaves the table it found. */
  lemma {:induction false} PreparesAndFinishes(node: Node, h: Host, answers: nat -> Answers, n: nat, s: Scene, spec: Spec)
    requires ValidProvider(node.site.provider) && Stands(node, Go(node, h, answers, n), s, AddPrepare(spec)) && s.room >= 4 && n <= 4
    requires ValidSpec(spec) && spec.key !in s.table && Working(s.table, spec, answers)
    ensures var end := Go(node, h, answers, 8); var site := node.site;
      if Grantable(site, s.table, spec) && node.buildable(PlanOf(NewRecord(site, s.table, spec, answers(n).env.nonce))) then
        var r := NewRecord(site, s.table, spec, answers(n).env.nonce);
        && Ends(end, Added(r), s.table[spec.key := r], s.links + {PlanOf(r)}, s.queue)
        && end.agent.disk.table == end.agent.journal.table
      else Ends(end, Failure, s.table, s.links, s.queue)
  {
    hide Stands, PluginStep, Go, PlanOf, NewRecord, Grantable, Healthy;
    assert s.table - {spec.key} == s.table;
    assert Healthy(answers(n)) && Healthy(answers(n + 1)) && Healthy(answers(n + 2)) && Healthy(answers(n + 3));
    GoOn(node, h, answers, n);
    Prepares(node, Go(node, h, answers, n), s, spec, answers(n));
    if Grantable(node.site, s.table, spec) {
      var ready := NewRecord(node.site, s.table, spec, answers(n).env.nonce);
      NewRecordFacts(node.site, s.table, spec, answers(n).env.nonce);
      var r, prepared := ready.(phase := Preparing), Moved(s, s.table[spec.key := ready.(phase := Preparing)]);
      if node.buildable(PlanOf(r)) {
        FinishesAdd(node, h, answers, n + 1, prepared, r);
        assert s.table[spec.key := r][spec.key := ready] == s.table[spec.key := ready];
        EndsBy(node, h, answers, n + 4, 8, Moved(prepared.(links := prepared.links + {PlanOf(r)}), prepared.table[spec.key := ready]), Added(ready));
        MovedIsSaved(prepared, s, r, ready, PlanOf(r), spec.key);
      } else {
        RollsBackUnbuilt(node, h, answers, n + 1, prepared, r);
        assert s.table[spec.key := r] - {spec.key} == s.table;
        EndsBy(node, h, answers, n + 4, 8, Scene(s.table, true, s.links, s.queue, 0), Failure);
      }
    } else {
      EndsBy(node, h, answers, n + 1, 8, s, Failure);
    }
  }

  lemma {:induction false} MovedIsSaved(prepared: Scene, s: Scene, r: Record, ready: Record, plan: Plan, key: Key)
    requires s.room > 1 && prepared == Moved(s, s.table[key := r]) && ready == r.(phase := Ready) && r.phase == Preparing
    ensures Moved(prepared.(links := prepared.links + {plan}), prepared.table[key := ready]).saved
  {
    assert prepared.table[key] == r && prepared.table[key := ready][key] == ready;
  }

  lemma {:induction false} NewRecordFacts(site: Site, table: Table, spec: Spec, nonce: Option<Token>)
    requires ValidProvider(site.provider) && Grantable(site, table, spec)
    ensures var r := NewRecord(site, table, spec, nonce);
      r.spec == spec && r.phase == Ready && r.hostInterface == site.hostName(spec.key) && PlanOf(r.(phase := Preparing)) == PlanOf(r)
  {
    hide Allocate;
  }

  /** When an ADD with working answers succeeds: over no record, if one can be granted and built;
      over its own Ready record, if the pair is alive; over its own unfinished one, if the pair
      can be built, after an aborted one if a new record can then be granted and built. */
  ghost predicate Addable(node: Node, s: Scene, spec: Spec, answers: nat -> Answers)
    requires ValidProvider(node.site.provider)
  {
    if spec.key !in s.table then
      Grantable(node.site, s.table, spec) && node.buildable(PlanOf(NewRecord(node.site, s.table, spec, answers(2).env.nonce)))
    else
      var record, rest := s.table[spec.key], s.table - {spec.key};
      && Fits(record.spec, spec)
      && match record.phase
         case Ready => PlanOf(record) in s.links
         case Preparing => node.buildable(PlanOf(record))
         case Aborting => node.buildable(PlanOf(record)) && Grantable(node.site, rest, spec)
                          && node.buildable(PlanOf(NewRecord(node.site, rest, spec, answers(4).env.nonce)))
         case Deleting => false
  }

  /** An accepted ADD with nothing to drain on its network. */
  ghost predicate Begins(node: Node, h: Host, s: Scene, spec: Spec) {
    && ValidProvider(node.site.provider) && Stands(node, h, s, DrainList(Add(spec))) && s.room >= 6 && ValidSpec(spec)
    && forall k :: k in s.queue ==> k.network != spec.key.network
  }

  lemma {:induction false} ReachesInspect(node: Node, h: Host, s: Scene, spec: Spec, answers: nat -> Answers)
    requires Begins(node, h, s, spec) && Healthy(answers(0)) && Healthy(answers(1))
    ensures var record := Lookup(s.table, spec.key);
      Stands(node, Go(node, h, answers, 2), s.(room := s.room - 1),
        if record.None? then AddPrepare(spec)
        else if !Fits(record.value.spec, spec) then Idle(Failure)
        else match record.value.phase
          case Ready => AddVerify(record.value)
          case Preparing => AddLink(record.value)
          case Aborting => AddRecover(spec, record.value)
          case Deleting => Idle(Failure))
  {
    hide Stands, PluginStep, Go, Fits, ValidSpec;
    GoOn(node, h, answers, 0);
    GoOn(node, h, answers, 1);
    Starts(node, h, s, Add(spec), answers(0));
    SpecKey(spec);
    Inspects(node, Go(node, h, answers, 1), s, spec, answers(1));
  }

  lemma {:induction false} SpecKey(spec: Spec)
    requires ValidSpec(spec)
    ensures ValidKey(spec.key)
  {
  }

  /** A fresh attachment: an ADD with working answers ends with exactly one more record, Ready and
      durable, of the request's own spec, and exactly its pair alive; or, if nothing can be
      granted or built, with nothing changed. */
  lemma {:induction false} FreshAdd(node: Node, h: Host, s: Scene, spec: Spec, answers: nat -> Answers)
    requires Begins(node, h, s, spec) && Working(s.table, spec, answers) && spec.key !in s.table
    ensures var end := Go(node, h, answers, 8);
      if Addable(node, s, spec, answers) then
        exists r: Record ::
          && r.spec == spec && r.phase == Ready && r.hostInterface == node.site.hostName(spec.key)
          && Ends(end, Added(r), s.table[spec.key := r], s.links + {PlanOf(r)}, s.queue)
          && end.agent.disk.table == end.agent.journal.table
      else Ends(end, Failure, s.table, s.links, s.queue)
  {
    hide Stands, Go, PlanOf, Grantable, NewRecord, Healthy, Fits, ValidSpec;
    assert Healthy(answers(0)) && Healthy(answers(1));
    ReachesInspect(node, h, s, spec, answers);
    PreparesAndFinishes(node, h, answers, 2, s.(room := s.room - 1), spec);
    if Addable(node, s, spec, answers) { NewRecordFacts(node.site, s.table, spec, answers(2).env.nonce); }
  }

  /** Over a record of the same key: conflicting and deleting ones refuse, a Ready one is
      returned as it is if its pair is alive, a prepared one is finished. */
  lemma {:induction false} RepeatedAdd(node: Node, h: Host, s: Scene, spec: Spec, answers: nat -> Answers)
    requires Begins(node, h, s, spec) && Working(s.table, spec, answers) && spec.key in s.table && s.table[spec.key].phase != Aborting
    ensures var end, record := Go(node, h, answers, 8), s.table[spec.key]; var ready := record.(phase := Ready);
      if Addable(node, s, spec, answers) then
        Ends(end, Added(ready), s.table[spec.key := ready], s.links + {PlanOf(record)}, s.queue)
      else if Fits(record.spec, spec) && record.phase == Preparing then Ends(end, Failure, s.table - {spec.key}, s.links, s.queue)
      else Ends(end, Failure, s.table, s.links, s.queue)
  {
    hide Stands, Go, PlanOf, Grantable, NewRecord, Healthy, Fits, ValidSpec, PluginStep;
    assert Healthy(answers(0)) && Healthy(answers(1)) && Healthy(answers(2)) && Healthy(answers(3)) && Healthy(answers(4));
    ReachesInspect(node, h, s, spec, answers);
    var record, t := s.table[spec.key], s.(room := s.room - 1);
    StandsKey(node, h, s, DrainList(Add(spec)), spec.key);
    if !Fits(record.spec, spec) || record.phase == Deleting {
      EndsBy(node, h, answers, 2, 8, t, Failure);
    } else if record.phase == Ready {
      GoOn(node, h, answers, 2);
      assert !answers(2).fails by { NotFailing(answers(2)); }
      Verifies(node, Go(node, h, answers, 2), t, record, answers(2));
      assert s.table[spec.key := record.(phase := Ready)] == s.table;
      assert PlanOf(record) in s.links ==> s.links + {PlanOf(record)} == s.links;
      EndsBy(node, h, answers, 3, 8, t, if PlanOf(record) in s.links then Added(record) else Failure);
    } else if node.buildable(PlanOf(record)) {
      FinishesAdd(node, h, answers, 2, t, record);
      EndsBy(node, h, answers, 5, 8, Moved(t.(links := t.links + {PlanOf(record)}), t.table[spec.key := record.(phase := Ready)]), Added(record.(phase := Ready)));
    } else {
      RollsBackUnbuilt(node, h, answers, 2, t, record);
      EndsBy(node, h, answers, 5, 8, Scene(s.table - {spec.key}, true, s.links, s.queue, 0), Failure);
    }
  }

  lemma {:induction false} NotFailing(a: Answers)
    requires Healthy(a)
    ensures !a.fails && !a.lost
  {
  }

  lemma {:induction false} StandsKey(node: Node, h: Host, s: Scene, pc: Pc, key: Key)
    requires Stands(node, h, s, pc) && key in s.table
    ensures s.table[key].spec.key == key
  {
    assert ValidRecord(node.site, key, s.table[key]);
  }

  /** Over its own aborted record an ADD first clears what is left of it, and then goes on as over
      none. */
  lemma {:induction false} RecoveringAdd(node: Node, h: Host, s: Scene, spec: Spec, answers: nat -> Answers)
    requires Begins(node, h, s, spec) && Working(s.table, spec, answers) && spec.key in s.table && s.table[spec.key].phase == Aborting
    ensures var end, record, rest := Go(node, h, answers, 8), s.table[spec.key], s.table - {spec.key};
      if !Fits(record.spec, spec) || !node.buildable(PlanOf(record)) then Ends(end, Failure, s.table, s.links, s.queue)
      else if Addable(node, s, spec, answers) then
        var r := NewRecord(node.site, rest, spec, answers(4).env.nonce);
        Ends(end, Added(r), s.table[spec.key := r], s.links - {PlanOf(record)} + {PlanOf(r)}, s.queue)
      else Ends(end, Failure, rest, s.links - {PlanOf(record)}, s.queue)
  {
    hide Stands, Go, PlanOf, Grantable, NewRecord, Healthy, Fits, ValidSpec, PluginStep;
    assert Healthy(answers(0)) && Healthy(answers(1)) && Healthy(answers(2)) && Healthy(answers(3));
    ReachesInspect(node, h, s, spec, answers);
    var record, t := s.table[spec.key], s.(room := s.room - 1);
    if !Fits(record.spec, spec) {
      EndsBy(node, h, answers, 2, 8, t, Failure);
    } else {
      GoOn(node, h, answers, 2);
      assert !answers(2).fails by { NotFailing(answers(2)); }
      Recovers(node, Go(node, h, answers, 2), t, spec, record, answers(2));
      if !node.buildable(PlanOf(record)) {
        EndsBy(node, h, answers, 3, 8, t, Failure);
      } else {
        var unlinked := t.(links := t.links - {PlanOf(record)});
        GoOn(node, h, answers, 3);
        CompletesRecovery(node, Go(node, h, answers, 3), unlinked, spec, answers(3));
        var cleared := Moved(unlinked, s.table - {spec.key});
        assert (s.table - {spec.key}) - {spec.key} == s.table - {spec.key};
        PreparesAndFinishes(node, h, answers, 4, cleared, spec);
        if Addable(node, s, spec, answers) {
          var r := NewRecord(node.site, s.table - {spec.key}, spec, answers(4).env.nonce);
          assert (s.table - {spec.key})[spec.key := r] == s.table[spec.key := r];
        }
      }
    }
  }

  /** With working answers an ADD succeeds exactly when it can, with a record of its request. */
  lemma {:induction false} AddSucceedsExactly(node: Node, h: Host, s: Scene, spec: Spec, answers: nat -> Answers)
    requires Begins(node, h, s, spec) && Working(s.table, spec, answers)
    ensures var end := Go(node, h, answers, 8);
      && end.pc.Idle? && (end.pc.report.Added? <==> Addable(node, s, spec, answers))
      && (end.pc.report.Added? ==>
            var r := end.pc.report.record;
            && Fits(r.spec, spec) && r.phase == Ready && PlanOf(r) in end.links
            && Lookup(end.agent.journal.table, spec.key) == Some(r)
            && forall k :: k != spec.key ==> Lookup(end.agent.journal.table, k) == Lookup(s.table, k))
      && (!end.pc.report.Added? ==> end.pc.report == Failure && end.links <= s.links)
      && end.queue == s.queue
  {
    hide Stands, Go, PlanOf, Grantable, NewRecord, Working, ValidSpec, Begins;
    BeginsValid(node, h, s, spec);
    if spec.key !in s.table {
      FreshAdd(node, h, s, spec, answers);
    } else if s.table[spec.key].phase != Aborting {
      RepeatedAdd(node, h, s, spec, answers);
      assert PlanOf(s.table[spec.key].(phase := Ready)) == PlanOf(s.table[spec.key]) by { PhaseIsNoPlan(s.table[spec.key]); }
    } else {
      RecoveringAdd(node, h, s, spec, answers);
      if Addable(node, s, spec, answers) { NewRecordFacts(node.site, s.table - {spec.key}, spec, answers(4).env.nonce); }
    }
  }

  lemma {:induction false} PhaseIsNoPlan(r: Record)
    ensures PlanOf(r.(phase := Ready)) == PlanOf(r)
  {
  }

  lemma {:induction false} BeginsValid(node: Node, h: Host, s: Scene, spec: Spec)
    requires Begins(node, h, s, spec)
    ensures ValidProvider(node.site.provider)
  {
  }

  /** A fresh ADD whose link or whose routes fail, and nothing else, leaves no trace: the record is
      gone from table and file, and the pair, created or not, from the kernel. */
  lemma {:induction false} FailedAddLeavesNothing(node: Node, h: Host, s: Scene, spec: Spec, answers: nat -> Answers, failing: nat)
    requires Begins(node, h, s, spec) && spec.key !in s.table && (failing == 3 || failing == 4)
    requires forall n :: (n != failing ==> Healthy(answers(n))) && NonceFits(s.table, spec, answers(n).env.nonce)
    requires answers(failing).fails
    requires Grantable(node.site, s.table, spec) && node.buildable(PlanOf(NewRecord(node.site, s.table, spec, answers(2).env.nonce)))
    requires PlanOf(NewRecord(node.site, s.table, spec, answers(2).env.nonce)) !in s.links
    ensures Ends(Go(node, h, answers, 8), Failure, s.table, s.links, s.queue)
    ensures Go(node, h, answers, 8).agent.disk.table == s.table
  {
    hide Stands, Go, PlanOf, Grantable, NewRecord, Healthy, Fits, ValidSpec, PluginStep;
    assert forall n :: n != failing ==> Healthy(answers(n));
    ReachesInspect(node, h, s, spec, answers);
    var t, ready := s.(room := s.room - 1), NewRecord(node.site, s.table, spec, answers(2).env.nonce);
    var r := ready.(phase := Preparing);
    NewRecordFacts(node.site, s.table, spec, answers(2).env.nonce);
    GoOn(node, h, answers, 2);
    GoOn(node, h, answers, 3);
    Prepares(node, Go(node, h, answers, 2), t, spec, answers(2));
    var prepared, plan := Moved(t, s.table[spec.key := r]), PlanOf(r);
    LinksPair(node, Go(node, h, answers, 3), prepared, r, answers(3));
    assert s.table[spec.key := r] - {spec.key} == s.table;
    var linked := prepared.(links := if failing == 3 && !answers(3).acts then s.links else s.links + {plan});
    if failing == 3 {
      RollsBack(node, h, answers, 4, linked, r);
    } else {
      assert !answers(3).fails by { NotFailing(answers(3)); }
      GoOn(node, h, answers, 4);
      Routes(node, Go(node, h, answers, 4), linked, r, answers(4));
      RollsBack(node, h, answers, 5, linked, r);
    }
    assert linked.links - {plan} == s.links;
    EndsBy(node, h, answers, if failing == 3 then 7 else 8, 8, Scene(s.table, true, s.links, s.queue, 0), Failure);
  }
}
