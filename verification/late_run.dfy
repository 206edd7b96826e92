/** A run with one late request: the completion of an aborted ADD arrives while a second ADD of
    the same attachment is being rolled back, and takes the record from under its pair. */
module LateRun {
  import opened Results
  import opened Attachments
  import opened JournalModel
  import opened Lifecycle
  import opened LifecycleSafety
  import opened DeleteDurability
  import opened ConcurrentCommands
  import opened LateEffects

  /** The journal, file, links and place of the one container that is busy. */
  predicate Stage(h: Host, table: Table, links: set<Plan>, revision: nat, pc: Pc) {
    && h.agent.open && h.agent.journal == Journal(table, Some(0), revision, None, false) && h.agent.disk == Image(table, false)
    && h.links == links && h.queue == map[] && h.pc == pc
  }

  predicate Solo(b: Backlog, slot: Slot, late: multiset<Operation>, table: Table, links: set<Plan>, revision: nat, pc: Pc) {
    && b.late == late && b.cluster.shared.pc == Idle(NoReport)
    && b.cluster.running == (if pc.Idle? then map[] else map[slot := pc])
    && Stage(b.cluster.shared.(pc := pc), table, links, revision, pc)
  }

  const Fails := Well.(fails := true)
  const Lost := Well.(lost := true)

  /** One step of the only running command. */
  lemma {:induction false} SoloStep(node: Node, b: Backlog, slot: Slot, a: Answers, late: multiset<Operation>, table: Table, links: set<Plan>, revision: nat, pc: Pc,
                                    table': Table, links': set<Plan>, revision': nat, pc': Pc)
    requires ValidProvider(node.site.provider) && Solo(b, slot, late, table, links, revision, pc) && !pc.Idle?
    requires Stage(PluginStep(node, b.cluster.shared.(pc := pc), a), table', links', revision', pc')
    ensures var on := if a.lost && !a.acts && RequestOf(pc).Some? then multiset{RequestOf(pc).value} else multiset{};
      Solo(NextBacklog(node, b, Now(Advance(slot, a))), slot, late + on, table', links', revision', pc')
  {
    hide PluginStep;
    assert slot in b.cluster.running && !Blocked(b.cluster, slot);
    assert map[slot := pc] - {slot} == map[];
    assert map[slot := pc][slot := pc'] == map[slot := pc'];
  }

  /** An accepted command on an otherwise idle node with nothing queued starts its lifecycle. */
  lemma {:induction false} SoloStart(node: Node, b: Backlog, slot: Slot, cmd: Command, late: multiset<Operation>, table: Table, links: set<Plan>, revision: nat, ended: Pc)
    requires ValidProvider(node.site.provider) && Solo(b, slot, late, table, links, revision, ended) && ended.Idle?
    requires Accepted(cmd) && Suits(slot, cmd) && (cmd.Add? || cmd.Del?) && slot.Container?
    ensures var started := if cmd.Add? then AddInspect(cmd.spec) else DeleteBegin(cmd.key, OfCommand(cmd.key));
      Solo(NextBacklog(node, NextBacklog(node, b, Now(Begin(slot, cmd))), Now(Advance(slot, Well))), slot, late, table, links, revision, started)
  {
    hide Accepted, SortedKeys, QueuedIn;
    var begun := NextBacklog(node, b, Now(Begin(slot, cmd)));
    assert begun.cluster.running == map[slot := DrainList(cmd)];
    assert Solo(begun, slot, late, table, links, revision, DrainList(cmd));
    var started := if cmd.Add? then AddInspect(cmd.spec) else DeleteBegin(cmd.key, OfCommand(cmd.key));
    NothingQueued(begun.cluster.shared.(pc := DrainList(cmd)), NetworkOf(cmd));
    SoloStep(node, begun, slot, Well, late, table, links, revision, DrainList(cmd), table, links, revision, started);
  }

  /** A transaction that meets no failure. */
  lemma {:induction false} StageTransact(node: Node, h: Host, op: Operation, table: Table, links: set<Plan>, revision: nat, pc: Pc)
    requires ValidProvider(node.site.provider) && Stage(h, table, links, revision, pc) && revision < 10
    ensures var effect := OperationEffect(node.site, table, op, CURRENT_SCHEMA, None);
      var (h', reply) := Transact(node, h, op, Well);
      && (effect.Ok? ==> reply == Answer(effect.value.attachment))
      && (effect.Ok? && (MutationKey(op).None? || Lookup(effect.value.table, MutationKey(op).value) == Lookup(table, MutationKey(op).value)) ==>
            Stage(h', table, links, revision, pc))
      && (effect.Ok? && MutationKey(op).Some? && Lookup(effect.value.table, MutationKey(op).value) != Lookup(table, MutationKey(op).value) ==>
            Stage(h', effect.value.table, links, revision + 1, pc))
  {
    hide OperationEffect, LegacyBlocked;
  }

  /** The node and attachment of the run. */
  predicate Fit(node: Node, spec: Spec) {
    && ValidProvider(node.site.provider) && ValidSpec(spec) && spec.workloadUid.None? && Allocate(node.site.provider, map[]).Ok?
    && Accepted(Add(spec)) && Accepted(Del(spec.key)) && node.buildable(PlanOf(Fresh(node, spec, Preparing)))
  }

  /** The record an ADD on the empty journal prepares, in the given phase. */
  function Fresh(node: Node, spec: Spec, phase: Phase): Record
    requires ValidProvider(node.site.provider)
  {
    var lease := Allocate(node.site.provider, map[]);
    Record(spec, node.site.hostName(spec.key), if lease.Ok? then lease.value else Lease(0, 0), phase, None)
  }

  function Only(node: Node, spec: Spec, phase: Phase): Table
    requires ValidProvider(node.site.provider)
  {
    map[spec.key := Fresh(node, spec, phase)]
  }

  // The steps of an ADD of this attachment.

  lemma {:induction false} InspectsNothing(node: Node, h: Host, spec: Spec, links: set<Plan>, revision: nat)
    requires Fit(node, spec) && Stage(h, map[], links, revision, AddInspect(spec)) && revision < 10
    ensures Stage(PluginStep(node, h, Well), map[], links, revision, AddPrepare(spec))
  {
    hide Transact, Allocate, Accepted, ValidKey;
    SpecKeyValid(spec);
    StageTransact(node, h, Inspect(spec.key), map[], links, revision, h.pc);
  }

  lemma {:induction false} SpecKeyValid(spec: Spec)
    requires ValidSpec(spec)
    ensures ValidKey(spec.key)
  {
  }

  lemma {:induction false} Prepares(node: Node, h: Host, spec: Spec, links: set<Plan>, revision: nat)
    requires Fit(node, spec) && Stage(h, map[], links, revision, AddPrepare(spec)) && revision < 10
    ensures Stage(PluginStep(node, h, Well), Only(node, spec, Preparing), links, revision + 1, AddLink(Fresh(node, spec, Preparing)))
  {
    hide Transact, Allocate, Accepted, ValidSpec;
    StageTransact(node, h, Prepare(spec), map[], links, revision, h.pc);
    assert map[][spec.key := Fresh(node, spec, Preparing)] == Only(node, spec, Preparing);
  }

  lemma {:induction false} LinkFails(node: Node, h: Host, spec: Spec, revision: nat)
    requires Fit(node, spec) && Stage(h, Only(node, spec, Preparing), {}, revision, AddLink(Fresh(node, spec, Preparing)))
    ensures Stage(PluginStep(node, h, Fails), Only(node, spec, Preparing), {}, revision, AbortBegin(Fresh(node, spec, Preparing), true))
  {
    hide Accepted, ValidSpec, Allocate;
  }

  lemma {:induction false} BeginsAbort(node: Node, h: Host, spec: Spec, links: set<Plan>, revision: nat)
    requires Fit(node, spec) && Stage(h, Only(node, spec, Preparing), links, revision, AbortBegin(Fresh(node, spec, Preparing), true)) && revision < 10
    ensures Stage(PluginStep(node, h, Well), Only(node, spec, Aborting), links, revision + 1, AbortUnlink(Fresh(node, spec, Preparing)))
  {
    hide Transact, Allocate, Accepted, ValidKey;
    SpecKeyValid(spec);
    StageTransact(node, h, BeginAbort(spec.key), Only(node, spec, Preparing), links, revision, h.pc);
    assert Only(node, spec, Preparing)[spec.key := Fresh(node, spec, Aborting)] == Only(node, spec, Aborting);
  }

  lemma {:induction false} Unlinks(node: Node, h: Host, spec: Spec, revision: nat)
    requires Fit(node, spec) && Stage(h, Only(node, spec, Aborting), {}, revision, AbortUnlink(Fresh(node, spec, Preparing)))
    ensures Stage(PluginStep(node, h, Well), Only(node, spec, Aborting), {}, revision, AbortComplete(spec.key))
  {
    hide Accepted, ValidSpec, Allocate;
    assert {} - {PlanOf(Fresh(node, spec, Preparing))} == {};
  }

  lemma {:induction false} GivesUp(node: Node, h: Host, spec: Spec, revision: nat)
    requires Fit(node, spec) && Stage(h, Only(node, spec, Aborting), {}, revision, AbortComplete(spec.key))
    ensures Stage(PluginStep(node, h, Lost), Only(node, spec, Aborting), {}, revision, Idle(Failure))
  {
    hide Accepted, ValidSpec, Allocate;
  }

  lemma {:induction false} InspectsAborting(node: Node, h: Host, spec: Spec, revision: nat)
    requires Fit(node, spec) && Stage(h, Only(node, spec, Aborting), {}, revision, AddInspect(spec)) && revision < 10
    ensures Stage(PluginStep(node, h, Well), Only(node, spec, Aborting), {}, revision, AddRecover(spec, Fresh(node, spec, Aborting)))
  {
    hide Transact, Allocate, Accepted, ValidKey;
    SpecKeyValid(spec);
    StageTransact(node, h, Inspect(spec.key), Only(node, spec, Aborting), {}, revision, h.pc);
  }

  lemma {:induction false} Recovers(node: Node, h: Host, spec: Spec, revision: nat)
    requires Fit(node, spec) && Stage(h, Only(node, spec, Aborting), {}, revision, AddRecover(spec, Fresh(node, spec, Aborting)))
    ensures Stage(PluginStep(node, h, Well), Only(node, spec, Aborting), {}, revision, AddRecoverComplete(spec))
  {
    hide Accepted, ValidSpec, Allocate;
    assert PlanOf(Fresh(node, spec, Aborting)) == PlanOf(Fresh(node, spec, Preparing));
    assert {} - {PlanOf(Fresh(node, spec, Aborting))} == {};
  }

  lemma {:induction false} Drops(node: Node, h: Host, spec: Spec, revision: nat)
    requires Fit(node, spec) && Stage(h, Only(node, spec, Aborting), {}, revision, AddRecoverComplete(spec)) && revision < 10
    ensures Stage(PluginStep(node, h, Well), map[], {}, revision + 1, AddPrepare(spec))
  {
    hide Transact, Allocate, Accepted, ValidKey;
    SpecKeyValid(spec);
    StageTransact(node, h, CompleteAbort(spec.key), Only(node, spec, Aborting), {}, revision, h.pc);
    assert Only(node, spec, Aborting) - {spec.key} == map[];
  }

  lemma {:induction false} LinksPair(node: Node, h: Host, spec: Spec, revision: nat)
    requires Fit(node, spec) && Stage(h, Only(node, spec, Preparing), {}, revision, AddLink(Fresh(node, spec, Preparing)))
    ensures Stage(PluginStep(node, h, Well), Only(node, spec, Preparing), Pair(node, spec), revision, AddRoutes(Fresh(node, spec, Preparing)))
  {
    hide Accepted, ValidSpec, Allocate;
    assert {} + {PlanOf(Fresh(node, spec, Preparing))} == Pair(node, spec);
  }

  lemma {:induction false} RoutesFail(node: Node, h: Host, spec: Spec, revision: nat)
    requires Fit(node, spec) && Stage(h, Only(node, spec, Preparing), Pair(node, spec), revision, AddRoutes(Fresh(node, spec, Preparing)))
    ensures Stage(PluginStep(node, h, Fails), Only(node, spec, Preparing), Pair(node, spec), revision, AbortBegin(Fresh(node, spec, Preparing), true))
  {
    hide Accepted, ValidSpec, Allocate;
  }

  lemma {:induction false} FindsNothing(node: Node, h: Host, spec: Spec, links: set<Plan>, revision: nat)
    requires Fit(node, spec) && Stage(h, map[], links, revision, DeleteBegin(spec.key, OfCommand(spec.key))) && revision < 10
    ensures Stage(PluginStep(node, h, Well), map[], links, revision, Idle(Deleted(spec.key)))
  {
    hide Transact, Allocate, Accepted, ValidKey;
    SpecKeyValid(spec);
    StageTransact(node, h, BeginDelete(spec.key), map[], links, revision, h.pc);
  }

  function Pair(node: Node, spec: Spec): set<Plan>
    requires ValidProvider(node.site.provider)
  {
    {PlanOf(Fresh(node, spec, Preparing))}
  }

  lemma {:induction false} RunOn(node: Node, b: Backlog, first: seq<BacklogEvent>, second: seq<BacklogEvent>)
    requires ValidProvider(node.site.provider)
    ensures RunBacklog(node, b, first + second) == RunBacklog(node, RunBacklog(node, b, first), second)
    decreases |first|
  {
    hide NextBacklog;
    if first == [] {
      assert first + second == second;
    } else {
      assert (first + second)[1..] == first[1..] + second;
      RunOn(node, NextBacklog(node, b, first[0]), first[1..], second);
    }
  }

  lemma {:induction false} RunTwo(node: Node, b: Backlog, e: BacklogEvent, f: BacklogEvent)
    requires ValidProvider(node.site.provider)
    ensures RunBacklog(node, b, [e, f]) == NextBacklog(node, NextBacklog(node, b, e), f)
  {
    hide NextBacklog;
    assert [e, f][1..] == [f] && [f][1..] == [];
    assert RunBacklog(node, NextBacklog(node, b, e), [f]) == RunBacklog(node, NextBacklog(node, NextBacklog(node, b, e), f), []);
  }

  lemma {:induction false} RunFour(node: Node, b: Backlog, e: BacklogEvent, f: BacklogEvent, g: BacklogEvent, k: BacklogEvent)
    requires ValidProvider(node.site.provider)
    ensures RunBacklog(node, b, [e, f, g, k]) == NextBacklog(node, NextBacklog(node, NextBacklog(node, NextBacklog(node, b, e), f), g), k)
  {
    hide NextBacklog, RunBacklog;
    assert [e, f, g, k] == [e, f] + [g, k];
    RunOn(node, b, [e, f], [g, k]);
    RunTwo(node, b, e, f);
    RunTwo(node, NextBacklog(node, NextBacklog(node, b, e), f), g, k);
  }

  function Step(slot: Slot, a: Answers): BacklogEvent { Now(Advance(slot, a)) }

  /** An ADD up to its prepared record, from an empty journal. */
  function AddEvents(slot: Slot, spec: Spec): seq<BacklogEvent> {
    [Now(Begin(slot, Add(spec))), Step(slot, Well), Step(slot, Well), Step(slot, Well)]
  }

  lemma {:induction false} AddPrepares(node: Node, b: Backlog, slot: Slot, spec: Spec, late: multiset<Operation>)
    requires Fit(node, spec) && slot == Container(spec.key.containerId) && Solo(b, slot, late, map[], {}, 0, Idle(NoReport))
    ensures Solo(RunBacklog(node, b, AddEvents(slot, spec)), slot, late, Only(node, spec, Preparing), {}, 1, AddLink(Fresh(node, spec, Preparing)))
  {
    hide NextBacklog, RunBacklog, PluginStep, Solo, Fit, Stage, Only, Fresh, Accepted;
    FitFacts(node, spec);
    RunFour(node, b, Now(Begin(slot, Add(spec))), Step(slot, Well), Step(slot, Well), Step(slot, Well));
    SoloStart(node, b, slot, Add(spec), late, map[], {}, 0, Idle(NoReport));
    var b2 := NextBacklog(node, NextBacklog(node, b, Now(Begin(slot, Add(spec)))), Step(slot, Well));
    SoloStage(b2, slot, late, map[], {}, 0, AddInspect(spec));
    InspectsNothing(node, b2.cluster.shared.(pc := AddInspect(spec)), spec, {}, 0);
    SoloStep(node, b2, slot, Well, late, map[], {}, 0, AddInspect(spec), map[], {}, 0, AddPrepare(spec));
    var b3 := NextBacklog(node, b2, Step(slot, Well));
    Plus(late);
    SoloStage(b3, slot, late, map[], {}, 0, AddPrepare(spec));
    Prepares(node, b3.cluster.shared.(pc := AddPrepare(spec)), spec, {}, 0);
    SoloStep(node, b3, slot, Well, late, map[], {}, 0, AddPrepare(spec), Only(node, spec, Preparing), {}, 1, AddLink(Fresh(node, spec, Preparing)));
  }

  lemma {:induction false} Plus(late: multiset<Operation>)
    ensures late + multiset{} == late
  {
  }

  lemma {:induction false} FitFacts(node: Node, spec: Spec)
    requires Fit(node, spec)
    ensures ValidProvider(node.site.provider) && Accepted(Add(spec)) && Accepted(Del(spec.key)) && ValidKey(spec.key)
  {
    hide Accepted, Allocate;
  }

  lemma {:induction false} SoloStage(b: Backlog, slot: Slot, late: multiset<Operation>, table: Table, links: set<Plan>, revision: nat, pc: Pc)
    requires Solo(b, slot, late, table, links, revision, pc)
    ensures Stage(b.cluster.shared.(pc := pc), table, links, revision, pc)
  {
  }

  /** Its link fails, it is rolled back, and the plugin gives up on the last request. */
  lemma {:induction false} FirstGivesUp(node: Node, b: Backlog, slot: Slot, spec: Spec)
    requires Fit(node, spec) && Solo(b, slot, multiset{}, Only(node, spec, Preparing), {}, 1, AddLink(Fresh(node, spec, Preparing)))
    ensures Solo(RunBacklog(node, b, [Step(slot, Fails), Step(slot, Well), Step(slot, Well), Step(slot, Lost)]), slot,
                 multiset{CompleteAbort(spec.key)}, Only(node, spec, Aborting), {}, 2, Idle(Failure))
  {
    hide NextBacklog, RunBacklog, PluginStep, Solo, Fit, Stage, Only, Fresh;
    FitFacts(node, spec);
    RunFour(node, b, Step(slot, Fails), Step(slot, Well), Step(slot, Well), Step(slot, Lost));
    var r, none := Fresh(node, spec, Preparing), multiset{};
    var preparing, aborting := Only(node, spec, Preparing), Only(node, spec, Aborting);
    Plus(none);
    SoloStage(b, slot, none, preparing, {}, 1, AddLink(r));
    LinkFails(node, b.cluster.shared.(pc := AddLink(r)), spec, 1);
    SoloStep(node, b, slot, Fails, none, preparing, {}, 1, AddLink(r), preparing, {}, 1, AbortBegin(r, true));
    var b1 := NextBacklog(node, b, Step(slot, Fails));
    SoloStage(b1, slot, none, preparing, {}, 1, AbortBegin(r, true));
    BeginsAbort(node, b1.cluster.shared.(pc := AbortBegin(r, true)), spec, {}, 1);
    SoloStep(node, b1, slot, Well, none, preparing, {}, 1, AbortBegin(r, true), aborting, {}, 2, AbortUnlink(r));
    var b2 := NextBacklog(node, b1, Step(slot, Well));
    SoloStage(b2, slot, none, aborting, {}, 2, AbortUnlink(r));
    Unlinks(node, b2.cluster.shared.(pc := AbortUnlink(r)), spec, 2);
    SoloStep(node, b2, slot, Well, none, aborting, {}, 2, AbortUnlink(r), aborting, {}, 2, AbortComplete(spec.key));
    var b3 := NextBacklog(node, b2, Step(slot, Well));
    SoloStage(b3, slot, none, aborting, {}, 2, AbortComplete(spec.key));
    GivesUp(node, b3.cluster.shared.(pc := AbortComplete(spec.key)), spec, 2);
    SoloStep(node, b3, slot, Lost, none, aborting, {}, 2, AbortComplete(spec.key), aborting, {}, 2, Idle(Failure));
    assert none + multiset{CompleteAbort(spec.key)} == multiset{CompleteAbort(spec.key)};
  }

  /** A second ADD recovers the aborted record. */
  lemma {:induction false} SecondRecovers(node: Node, b: Backlog, slot: Slot, spec: Spec, late: multiset<Operation>)
    requires Fit(node, spec) && slot == Container(spec.key.containerId) && Solo(b, slot, late, Only(node, spec, Aborting), {}, 2, Idle(Failure))
    ensures Solo(RunBacklog(node, b, AddEvents(slot, spec)), slot, late, Only(node, spec, Aborting), {}, 2, AddRecoverComplete(spec))
  {
    hide NextBacklog, RunBacklog, PluginStep, Solo, Fit, Stage, Only, Fresh, Accepted;
    FitFacts(node, spec);
    RunFour(node, b, Now(Begin(slot, Add(spec))), Step(slot, Well), Step(slot, Well), Step(slot, Well));
    var aborting, r := Only(node, spec, Aborting), Fresh(node, spec, Aborting);
    Plus(late);
    SoloStart(node, b, slot, Add(spec), late, aborting, {}, 2, Idle(Failure));
    var b2 := NextBacklog(node, NextBacklog(node, b, Now(Begin(slot, Add(spec)))), Step(slot, Well));
    SoloStage(b2, slot, late, aborting, {}, 2, AddInspect(spec));
    InspectsAborting(node, b2.cluster.shared.(pc := AddInspect(spec)), spec, 2);
    SoloStep(node, b2, slot, Well, late, aborting, {}, 2, AddInspect(spec), aborting, {}, 2, AddRecover(spec, r));
    var b3 := NextBacklog(node, b2, Step(slot, Well));
    SoloStage(b3, slot, late, aborting, {}, 2, AddRecover(spec, r));
    Recovers(node, b3.cluster.shared.(pc := AddRecover(spec, r)), spec, 2);
    SoloStep(node, b3, slot, Well, late, aborting, {}, 2, AddRecover(spec, r), aborting, {}, 2, AddRecoverComplete(spec));
  }

  /** It prepares the record anew, creates the pair and has to roll back too. */
  lemma {:induction false} SecondLinks(node: Node, b: Backlog, slot: Slot, spec: Spec, late: multiset<Operation>)
    requires Fit(node, spec) && Solo(b, slot, late, Only(node, spec, Aborting), {}, 2, AddRecoverComplete(spec))
    ensures Solo(RunBacklog(node, b, [Step(slot, Well), Step(slot, Well), Step(slot, Well), Step(slot, Fails)]), slot,
                 late, Only(node, spec, Preparing), Pair(node, spec), 4, AbortBegin(Fresh(node, spec, Preparing), true))
  {
    hide NextBacklog, RunBacklog, PluginStep, Solo, Fit, Stage, Only, Fresh, Pair;
    FitFacts(node, spec);
    RunFour(node, b, Step(slot, Well), Step(slot, Well), Step(slot, Well), Step(slot, Fails));
    var preparing, aborting, r, pair := Only(node, spec, Preparing), Only(node, spec, Aborting), Fresh(node, spec, Preparing), Pair(node, spec);
    Plus(late);
    SoloStage(b, slot, late, aborting, {}, 2, AddRecoverComplete(spec));
    Drops(node, b.cluster.shared.(pc := AddRecoverComplete(spec)), spec, 2);
    SoloStep(node, b, slot, Well, late, aborting, {}, 2, AddRecoverComplete(spec), map[], {}, 3, AddPrepare(spec));
    var b1 := NextBacklog(node, b, Step(slot, Well));
    SoloStage(b1, slot, late, map[], {}, 3, AddPrepare(spec));
    Prepares(node, b1.cluster.shared.(pc := AddPrepare(spec)), spec, {}, 3);
    SoloStep(node, b1, slot, Well, late, map[], {}, 3, AddPrepare(spec), preparing, {}, 4, AddLink(r));
    var b2 := NextBacklog(node, b1, Step(slot, Well));
    SoloStage(b2, slot, late, preparing, {}, 4, AddLink(r));
    LinksPair(node, b2.cluster.shared.(pc := AddLink(r)), spec, 4);
    SoloStep(node, b2, slot, Well, late, preparing, {}, 4, AddLink(r), preparing, pair, 4, AddRoutes(r));
    var b3 := NextBacklog(node, b2, Step(slot, Well));
    SoloStage(b3, slot, late, preparing, pair, 4, AddRoutes(r));
    RoutesFail(node, b3.cluster.shared.(pc := AddRoutes(r)), spec, 4);
    SoloStep(node, b3, slot, Fails, late, preparing, pair, 4, AddRoutes(r), preparing, pair, 4, AbortBegin(r, true));
  }

  /** The late request is delivered between the second roll-back's first two steps. */
  lemma {:induction false} LateArrives(node: Node, b: Backlog, slot: Slot, spec: Spec)
    requires Fit(node, spec)
    requires Solo(b, slot, multiset{CompleteAbort(spec.key)}, Only(node, spec, Preparing), Pair(node, spec), 4, AbortBegin(Fresh(node, spec, Preparing), true))
    ensures Solo(RunBacklog(node, b, [Step(slot, Well), Deliver(CompleteAbort(spec.key), Well.env)]), slot,
                 multiset{}, map[], Pair(node, spec), 6, AbortUnlink(Fresh(node, spec, Preparing)))
  {
    hide NextBacklog, RunBacklog, PluginStep, Solo, Fit, Stage, Only, Fresh, Pair;
    FitFacts(node, spec);
    RunTwo(node, b, Step(slot, Well), Deliver(CompleteAbort(spec.key), Well.env));
    var late, r, pair := multiset{CompleteAbort(spec.key)}, Fresh(node, spec, Preparing), Pair(node, spec);
    Plus(late);
    SoloStage(b, slot, late, Only(node, spec, Preparing), pair, 4, AbortBegin(r, true));
    BeginsAbort(node, b.cluster.shared.(pc := AbortBegin(r, true)), spec, pair, 4);
    SoloStep(node, b, slot, Well, late, Only(node, spec, Preparing), pair, 4, AbortBegin(r, true), Only(node, spec, Aborting), pair, 5, AbortUnlink(r));
    Delivered(node, NextBacklog(node, b, Step(slot, Well)), slot, spec, pair, r);
  }

  lemma {:induction false} Delivered(node: Node, b: Backlog, slot: Slot, spec: Spec, links: set<Plan>, r: Record)
    requires Fit(node, spec) && Solo(b, slot, multiset{CompleteAbort(spec.key)}, Only(node, spec, Aborting), links, 5, AbortUnlink(r))
    ensures Solo(NextBacklog(node, b, Deliver(CompleteAbort(spec.key), Well.env)), slot, multiset{}, map[], links, 6, AbortUnlink(r))
  {
    hide Transact, Allocate, Accepted, ValidKey;
    SpecKeyValid(spec);
    StageTransact(node, b.cluster.shared, CompleteAbort(spec.key), Only(node, spec, Aborting), links, 5, Idle(NoReport));
    assert Only(node, spec, Aborting) - {spec.key} == map[];
    assert multiset{CompleteAbort(spec.key)} - multiset{CompleteAbort(spec.key)} == multiset{};
  }

  /** The plugin dies, and a DEL finds nothing to delete. */
  lemma {:induction false} DeleteFindsNothing(node: Node, b: Backlog, slot: Slot, spec: Spec)
    requires Fit(node, spec) && slot == Container(spec.key.containerId)
    requires Solo(b, slot, multiset{}, map[], Pair(node, spec), 6, AbortUnlink(Fresh(node, spec, Preparing)))
    ensures var d := RunBacklog(node, b, [Now(Kill(slot))] + [Now(Begin(slot, Del(spec.key))), Step(slot, Well)]).cluster;
      && slot in d.running && d.running[slot] == DeleteBegin(spec.key, OfCommand(spec.key))
      && Stage(PluginStep(node, At(d, slot), Well), map[], Pair(node, spec), 6, Idle(Deleted(spec.key)))
  {
    hide NextBacklog, RunBacklog, PluginStep, Fit, Stage, Only, Fresh, Pair, Accepted;
    FitFacts(node, spec);
    var pair := Pair(node, spec);
    RunOn(node, b, [Now(Kill(slot))], [Now(Begin(slot, Del(spec.key))), Step(slot, Well)]);
    RunOne(node, b, Now(Kill(slot)));
    var killed := NextBacklog(node, b, Now(Kill(slot)));
    Killed(node, b, slot, map[], pair, 6, AbortUnlink(Fresh(node, spec, Preparing)));
    RunTwo(node, killed, Now(Begin(slot, Del(spec.key))), Step(slot, Well));
    SoloStart(node, killed, slot, Del(spec.key), multiset{}, map[], pair, 6, Idle(NoReport));
    var d := NextBacklog(node, NextBacklog(node, killed, Now(Begin(slot, Del(spec.key)))), Step(slot, Well));
    FindsNothing(node, At(d.cluster, slot), spec, pair, 6);
  }

  lemma {:induction false} Killed(node: Node, b: Backlog, slot: Slot, table: Table, links: set<Plan>, revision: nat, pc: Pc)
    requires ValidProvider(node.site.provider) && Solo(b, slot, multiset{}, table, links, revision, pc)
    ensures Solo(NextBacklog(node, b, Now(Kill(slot))), slot, multiset{}, table, links, revision, Idle(NoReport))
  {
    assert map[slot := pc] - {slot} == map[];
    Plus(multiset{});
  }

  lemma {:induction false} RunOne(node: Node, b: Backlog, e: BacklogEvent)
    requires ValidProvider(node.site.provider)
    ensures RunBacklog(node, b, [e]) == NextBacklog(node, b, e)
  {
    hide NextBacklog;
    assert [e][1..] == [];
  }

  /** The whole run up to the late request. */
  function LateEvents(slot: Slot, spec: Spec): seq<BacklogEvent> {
    [Now(Agent(Runs.Open))] + AddEvents(slot, spec) + [Step(slot, Fails), Step(slot, Well), Step(slot, Well), Step(slot, Lost)]
    + AddEvents(slot, spec) + [Step(slot, Well), Step(slot, Well), Step(slot, Well), Step(slot, Fails)]
    + [Step(slot, Well), Deliver(CompleteAbort(spec.key), Well.env)]
  }

  lemma {:induction false} Opens(node: Node, slot: Slot)
    requires ValidProvider(node.site.provider)
    ensures Solo(NextBacklog(node, FirstBacklog, Now(Agent(Runs.Open))), slot, multiset{}, map[], {}, 0, Idle(NoReport))
  {
    hide Runs.Next;
    FirstOpen(node);
    Plus(multiset{});
  }

  lemma {:induction false} LateEventsReach(node: Node, spec: Spec)
    requires Fit(node, spec)
    ensures var slot := Container(spec.key.containerId);
      Solo(RunBacklog(node, FirstBacklog, LateEvents(slot, spec)), slot, multiset{}, map[], Pair(node, spec), 6, AbortUnlink(Fresh(node, spec, Preparing)))
  {
    hide NextBacklog, RunBacklog, Solo, Fit, Only, Fresh, Pair, AddEvents;
    FitFacts(node, spec);
    var slot := Container(spec.key.containerId);
    var fails, recovers := [Step(slot, Fails), Step(slot, Well), Step(slot, Well), Step(slot, Lost)], [Step(slot, Well), Step(slot, Well), Step(slot, Well), Step(slot, Fails)];
    var one := [Now(Agent(Runs.Open))];
    var two := one + AddEvents(slot, spec);
    var three := two + fails;
    var four := three + AddEvents(slot, spec);
    var five := four + recovers;
    RunOne(node, FirstBacklog, Now(Agent(Runs.Open)));
    Opens(node, slot);
    RunOn(node, FirstBacklog, one, AddEvents(slot, spec));
    AddPrepares(node, RunBacklog(node, FirstBacklog, one), slot, spec, multiset{});
    RunOn(node, FirstBacklog, two, fails);
    FirstGivesUp(node, RunBacklog(node, FirstBacklog, two), slot, spec);
    RunOn(node, FirstBacklog, three, AddEvents(slot, spec));
    SecondRecovers(node, RunBacklog(node, FirstBacklog, three), slot, spec, multiset{CompleteAbort(spec.key)});
    RunOn(node, FirstBacklog, four, recovers);
    SecondLinks(node, RunBacklog(node, FirstBacklog, four), slot, spec, multiset{CompleteAbort(spec.key)});
    RunOn(node, FirstBacklog, five, [Step(slot, Well), Deliver(CompleteAbort(spec.key), Well.env)]);
    LateArrives(node, RunBacklog(node, FirstBacklog, five), slot, spec);
  }

  /** From first boot, one late request leaves a live pair without an owner, and a DEL then
      reports success, unqueued, with that pair still alive. */
  lemma {:induction false} LateRequestBreaksOwnership(node: Node, spec: Spec)
    requires Fit(node, spec)
    ensures var slot := Container(spec.key.containerId);
      var b := RunBacklog(node, FirstBacklog, LateEvents(slot, spec));
      var d := RunBacklog(node, b, [Now(Kill(slot))] + [Now(Begin(slot, Del(spec.key))), Step(slot, Well)]).cluster;
      && !LinksOwned(b.cluster.shared) && slot in d.running
      && var h := PluginStep(node, At(d, slot), Well);
      h.pc == Idle(Deleted(spec.key)) && spec.key !in h.queue && !NoLink(h, spec.key)
  {
    hide RunBacklog, PluginStep, Fit, Only, LateEvents;
    FitFacts(node, spec);
    var slot := Container(spec.key.containerId);
    LateEventsReach(node, spec);
    var b := RunBacklog(node, FirstBacklog, LateEvents(slot, spec));
    DeleteFindsNothing(node, b, slot, spec);
    var l := PlanOf(Fresh(node, spec, Preparing));
    assert l in Pair(node, spec) && l.spec.key == spec.key;
  }
}
