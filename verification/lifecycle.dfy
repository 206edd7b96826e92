/** The CNI plugin's commands as step-by-step programs around the agent's journal, the
    kernel's links and the durable queue of deferred deletes. Every kernel call, reply,
    file write and process may fail at every step. */
module Lifecycle {
  import opened Results
  import opened Attachments
  import opened JournalModel
  import Runs = JournalRuns

  const MAX_PENDING_DELETES := 65536

  /** The veth pair a record stands for: everything in it but its phase. */
  datatype Plan = Plan(spec: Spec, hostInterface: string, lease: Lease, token: Option<Token>)

  function PlanOf(record: Record): Plan {
    Plan(record.spec, record.hostInterface, record.lease, record.token)
  }

  /** What one node fixes. `buildable` is the link layer's deterministic plan validation. */
  datatype Node = Node(site: Site, buildable: Plan -> bool)

  datatype Command =
    | Add(spec: Spec)
    | Del(key: Key)
    | CheckOnly(network: string)
    | GarbageCollect(network: string, valid: set<(string, string)>)

  function NetworkOf(cmd: Command): string {
    match cmd
    case Add(spec) => spec.key.network
    case Del(key) => key.network
    case CheckOnly(network) => network
    case GarbageCollect(network, _) => network
  }

  /** The plugin's own interface-name check; unlike the journal's it also accepts a leading
      underscore, dot or dash. */
  predicate PluginInterfaceName(value: string) {
    0 < |value| <= 15 && forall i :: 0 <= i < |value| ==> Alphanumeric(value[i]) || value[i] in {'_', '.', '-'}
  }

  predicate PluginKey(key: Key) {
    ValidIdentifier(key.network, 253) && ValidIdentifier(key.containerId, 253) && PluginInterfaceName(key.ifname)
  }

  /** Commands the plugin accepts before it does anything else. */
  predicate Accepted(cmd: Command) {
    match cmd
    case Add(spec) => PluginKey(spec.key) && 0 < |spec.netns| && spec.netns[0] == '/' && (forall c :: c in spec.netns ==> c != '\0')
    case Del(key) => PluginKey(key)
    case CheckOnly(network) => ValidIdentifier(network, 253)
    case GarbageCollect(network, _) => ValidIdentifier(network, 253)
  }

  datatype Report = NoReport | Failure | Added(record: Record) | Deleted(key: Key) | Collected

  /** A page of the garbage collector: records still to visit, and where the next page starts. */
  datatype Page = Page(network: string, valid: set<(string, string)>, rest: seq<Record>, last: Key, full: bool, failed: bool)

  /** Who asked for a delete, and what that caller does next. */
  datatype Caller =
    | OfCommand(key: Key)
    | OfDrain(key: Key, rest: seq<Key>, cmd: Command)
    | OfCollector(page: Page)

  /** Where the running command stands. */
  datatype Pc =
    | Idle(report: Report)
    | DrainList(cmd: Command)
    | DeleteBegin(key: Key, caller: Caller)
    | DeleteCleanup(record: Record, caller: Caller)
    | DeleteComplete(key: Key, caller: Caller)
    | DrainRemove(key: Key, rest: seq<Key>, cmd: Command)
    | Enqueue(key: Key, transport: bool)
    | AddInspect(spec: Spec)
    | AddVerify(record: Record)
    | AddRecover(spec: Spec, record: Record)
    | AddRecoverComplete(spec: Spec)
    | AddPrepare(spec: Spec)
    | AddLink(record: Record)
    | AddRoutes(record: Record)
    | AddCommit(record: Record)
    | AbortBegin(record: Record, unlink: bool)
    | AbortUnlink(record: Record)
    | AbortComplete(key: Key)
    | CollectList(network: string, valid: set<(string, string)>, after: Option<Key>, failed: bool)
    | CollectRecord(page: Page)
    | CollectAborting(record: Record, page: Page)
    | CollectAborted(key: Key, page: Page)

  /** Agent, kernel, queue and command. Queue entries and ADD starts carry a clock reading. */
  datatype Host = Host(agent: Runs.World, links: set<Plan>, queue: map<Key, nat>, lastAdd: map<string, nat>, clock: nat, pc: Pc)

  /** What one plugin step finds outside: the journal's environment, whether the exchange with
      the agent is lost, whether a kernel call or queue write fails, and whether what was lost
      or failed still took effect. */
  datatype Answers = Answers(env: Env, lost: bool, fails: bool, acts: bool)

  datatype Event =
    | Start(cmd: Command)
    | Step(answers: Answers)
    | PluginCrash
    | AgentEvent(event: Runs.Event)
    | Reboot

  datatype Reply = Transport | Rejected | Answer(attachment: Option<Record>)

  ghost function Transact(node: Node, h: Host, op: Operation, a: Answers): (Host, Reply)
    requires ValidProvider(node.site.provider)
  {
    if !h.agent.open || (a.lost && !a.acts) then (h, Transport)
    else
      var reply := Apply(node.site, h.agent.journal, h.agent.disk, CURRENT_SCHEMA, op, a.env.(newId := h.agent.nextId)).reply;
      var h' := h.(agent := Runs.Next(node.site, h.agent, Runs.Transact(CURRENT_SCHEMA, op, a.env)));
      (h', if a.lost then Transport else if reply.Err? then Rejected else Answer(reply.value))
  }

  /** Deleting the pair of a plan: a failed call may still have removed it. */
  function Unlink(node: Node, h: Host, record: Record, a: Answers): (Host, bool) {
    if !node.buildable(PlanOf(record)) then (h, false)
    else if a.fails then (if a.acts then h.(links := h.links - {PlanOf(record)}) else h, false)
    else (h.(links := h.links - {PlanOf(record)}), true)
  }

  function DrainFailed(cmd: Command, transport: bool): Pc {
    if cmd.Del? then Enqueue(cmd.key, transport) else Idle(Failure)
  }

  function DeleteReturns(caller: Caller, ok: bool, transport: bool): Pc {
    match caller
    case OfCommand(key) => if ok then Idle(Deleted(key)) else Enqueue(key, transport)
    case OfDrain(key, rest, cmd) => if ok then DrainRemove(key, rest, cmd) else DrainFailed(cmd, transport)
    case OfCollector(page) => CollectRecord(page.(failed := page.failed || !ok))
  }

  /** The drained queue lets the command's own lifecycle start. */
  function StartLifecycle(h: Host, cmd: Command): Host {
    match cmd
    case Add(spec) => h.(pc := AddInspect(spec), lastAdd := h.lastAdd[spec.key.network := h.clock])
    case Del(key) => h.(pc := DeleteBegin(key, OfCommand(key)))
    case CheckOnly(_) => h.(pc := Idle(NoReport))
    case GarbageCollect(network, valid) => h.(pc := CollectList(network, valid, None, false))
  }

  function DrainNext(h: Host, pending: seq<Key>, cmd: Command): Host {
    if pending == [] then StartLifecycle(h, cmd)
    else h.(pc := DeleteBegin(pending[0], OfDrain(pending[0], pending[1..], cmd)))
  }

  ghost function QueuedIn(h: Host, network: string): set<Key> {
    set k | k in h.queue && k.network == network
  }

  ghost function StepDrain(h: Host, a: Answers): Host
    requires h.pc.DrainList? || h.pc.DrainRemove? || h.pc.Enqueue?
  {
    match h.pc
    case DrainList(cmd) =>
      if a.fails then h.(pc := DrainFailed(cmd, false))
      else DrainNext(h, SortedKeys(QueuedIn(h, NetworkOf(cmd))), cmd)
    case DrainRemove(key, rest, cmd) =>
      var removed := h.(queue := h.queue - {key});
      if a.fails then (if a.acts then removed else h).(pc := DrainFailed(cmd, false))
      else DrainNext(removed, rest, cmd)
    case Enqueue(key, transport) =>
      if key in h.queue && !a.fails then h.(pc := Idle(if transport then Deleted(key) else Failure))
      else if key in h.queue || |QueuedIn(h, key.network)| >= MAX_PENDING_DELETES then h.(pc := Idle(Failure))
      else
        var queued := h.(queue := h.queue[key := h.clock]);
        if a.fails then (if a.acts then queued else h).(pc := Idle(Failure))
        else queued.(pc := Idle(if transport then Deleted(key) else Failure))
  }

  ghost function StepDelete(node: Node, h: Host, a: Answers): Host
    requires ValidProvider(node.site.provider)
    requires h.pc.DeleteBegin? || h.pc.DeleteCleanup? || h.pc.DeleteComplete?
  {
    match h.pc
    case DeleteBegin(key, caller) =>
      var (h', reply) := Transact(node, h, BeginDelete(key), a);
      if !reply.Answer? then h'.(pc := DeleteReturns(caller, false, reply.Transport?))
      else if reply.attachment.None? then h'.(pc := DeleteReturns(caller, true, false))
      else h'.(pc := DeleteCleanup(reply.attachment.value, caller))
    case DeleteCleanup(record, caller) =>
      var (h', ok) := Unlink(node, h, record, a);
      h'.(pc := if ok then DeleteComplete(record.spec.key, caller) else DeleteReturns(caller, false, false))
    case DeleteComplete(key, caller) =>
      var (h', reply) := Transact(node, h, CompleteDelete(key), a);
      h'.(pc := DeleteReturns(caller, reply.Answer?, reply.Transport?))
  }

  /** How an ADD continues over a record an earlier ADD left. */
  function ResumeAdd(spec: Spec, record: Record): Pc {
    match record.phase
    case Ready => AddVerify(record)
    case Preparing => AddLink(record)
    case Aborting => AddRecover(spec, record)
    case Deleting => Idle(Failure)
  }

  ghost function StepAdd(node: Node, h: Host, a: Answers): Host
    requires ValidProvider(node.site.provider)
    requires h.pc.AddInspect? || h.pc.AddVerify? || h.pc.AddRecover? || h.pc.AddRecoverComplete? || h.pc.AddPrepare?
  {
    match h.pc
    case AddInspect(spec) =>
      var (h', reply) := Transact(node, h, Inspect(spec.key), a);
      if !reply.Answer? then h'.(pc := Idle(Failure))
      else if reply.attachment.None? then h'.(pc := AddPrepare(spec))
      else
        var record := reply.attachment.value;
        h'.(pc := if record.spec.AcceptsReplay(spec) then ResumeAdd(spec, record) else Idle(Failure))
    case AddVerify(record) =>
      h.(pc := Idle(if PlanOf(record) in h.links && !a.fails then Added(record) else Failure))
    case AddRecover(spec, record) =>
      var (h', ok) := Unlink(node, h, record, a);
      h'.(pc := if ok then AddRecoverComplete(spec) else Idle(Failure))
    case AddRecoverComplete(spec) =>
      var (h', reply) := Transact(node, h, CompleteAbort(spec.key), a);
      h'.(pc := if reply.Answer? then AddPrepare(spec) else Idle(Failure))
    case AddPrepare(spec) =>
      var (h', reply) := Transact(node, h, Prepare(spec), a);
      h'.(pc := if reply.Answer? && reply.attachment.Some? then AddLink(reply.attachment.value) else Idle(Failure))
  }

  ghost function StepFinish(node: Node, h: Host, a: Answers): Host
    requires ValidProvider(node.site.provider)
    requires h.pc.AddLink? || h.pc.AddRoutes? || h.pc.AddCommit? || h.pc.AbortBegin? || h.pc.AbortUnlink? || h.pc.AbortComplete?
  {
    match h.pc
    case AddLink(record) =>
      var linked := h.(links := h.links + {PlanOf(record)});
      if !node.buildable(PlanOf(record)) then h.(pc := AbortBegin(record, false))
      else if a.fails then (if a.acts then linked else h).(pc := AbortBegin(record, true))
      else linked.(pc := AddRoutes(record))
    case AddRoutes(record) =>
      h.(pc := if a.fails then AbortBegin(record, true) else AddCommit(record))
    case AddCommit(record) =>
      var (h', reply) := Transact(node, h, Commit(record.spec.key), a);
      if !reply.Answer? || reply.attachment.None? then h'.(pc := AbortBegin(record, true))
      else h'.(pc := Idle(if reply.attachment.value.phase == Ready then Added(reply.attachment.value) else Failure))
    case AbortBegin(record, unlink) =>
      var (h', reply) := Transact(node, h, BeginAbort(record.spec.key), a);
      h'.(pc := if !reply.Answer? then Idle(Failure)
                else if unlink then AbortUnlink(record) else AbortComplete(record.spec.key))
    case AbortUnlink(record) =>
      var (h', ok) := Unlink(node, h, record, a);
      h'.(pc := if ok then AbortComplete(record.spec.key) else Idle(Failure))
    case AbortComplete(key) =>
      var (h', _) := Transact(node, h, CompleteAbort(key), a);
      h'.(pc := Idle(Failure))
  }

  ghost function StepCollect(node: Node, h: Host, a: Answers): Host
    requires ValidProvider(node.site.provider)
    requires h.pc.CollectList? || h.pc.CollectRecord? || h.pc.CollectAborting? || h.pc.CollectAborted?
  {
    match h.pc
    case CollectList(network, valid, after, failed) =>
      var (h', reply) := Transact(node, h, List(network, after, MAX_LIST_RECORDS), a);
      if !reply.Answer? then h'.(pc := Idle(Failure))
      else
        var records := Listing(h.agent.journal.table, network, after, MAX_LIST_RECORDS);
        if records == [] then h'.(pc := Idle(if failed then Failure else Collected))
        else h'.(pc := CollectRecord(Page(network, valid, records, records[|records| - 1].spec.key, |records| == MAX_LIST_RECORDS, failed)))
    case CollectRecord(page) =>
      if page.rest == [] then
        h.(pc := if page.full then CollectList(page.network, page.valid, Some(page.last), page.failed)
                 else Idle(if page.failed then Failure else Collected))
      else
        var record, next := page.rest[0], page.(rest := page.rest[1..]);
        if (record.spec.key.containerId, record.spec.key.ifname) in page.valid then h.(pc := CollectRecord(next))
        else if record.phase == Aborting then h.(pc := CollectAborting(record, next))
        else h.(pc := DeleteBegin(record.spec.key, OfCollector(next)))
    case CollectAborting(record, page) =>
      var (h', ok) := Unlink(node, h, record, a);
      h'.(pc := if ok then CollectAborted(record.spec.key, page) else CollectRecord(page.(failed := true)))
    case CollectAborted(key, page) =>
      var (h', reply) := Transact(node, h, CompleteAbort(key), a);
      h'.(pc := CollectRecord(page.(failed := page.failed || !reply.Answer?)))
  }

  ghost function PluginStep(node: Node, h: Host, a: Answers): Host
    requires ValidProvider(node.site.provider)
  {
    if h.pc.Idle? then h
    else if h.pc.DrainList? || h.pc.DrainRemove? || h.pc.Enqueue? then StepDrain(h, a)
    else if h.pc.DeleteBegin? || h.pc.DeleteCleanup? || h.pc.DeleteComplete? then StepDelete(node, h, a)
    else if h.pc.AddInspect? || h.pc.AddVerify? || h.pc.AddRecover? || h.pc.AddRecoverComplete? || h.pc.AddPrepare? then StepAdd(node, h, a)
    else if h.pc.CollectList? || h.pc.CollectRecord? || h.pc.CollectAborting? || h.pc.CollectAborted? then StepCollect(node, h, a)
    else StepFinish(node, h, a)
  }

  ghost function Next(node: Node, h: Host, e: Event): Host
    requires ValidProvider(node.site.provider)
  {
    var h' := match e
      case Start(cmd) => if h.pc.Idle? && Accepted(cmd) then h.(pc := DrainList(cmd)) else h
      case Step(a) => PluginStep(node, h, a)
      case PluginCrash => h.(pc := Idle(NoReport))
      case AgentEvent(event) => if event.Transact? then h else h.(agent := Runs.Next(node.site, h.agent, event))
      case Reboot => h.(pc := Idle(NoReport), links := {}, agent := h.agent.(open := false));
    h'.(clock := h.clock + 1)
  }

  ghost function Run(node: Node, h: Host, events: seq<Event>): Host
    requires ValidProvider(node.site.provider)
    decreases |events|
  {
    if events == [] then h else Run(node, Next(node, h, events[0]), events[1..])
  }

  const FirstBoot := Host(Runs.FirstBoot, {}, map[], map[], 0, Idle(NoReport))
}
