/** Commands of different containers running side by side, as the CNI specification version
    1.1.0, section 3, allows: one command at a time for a container, and a garbage collection
    never beside an ADD or DEL. Commands share the agent, the links and the queue; a drain
    holds its network's queue lock from the listing until its last entry is removed. */
module ConcurrentCommands {
  import opened Results
  import opened Attachments
  import opened Lifecycle

  /** Who may have a command running. */
  datatype Slot = Container(id: string) | Collector

  /** The shared state, whose own place is always idle, and each running command's place. */
  datatype Cluster = Cluster(shared: Host, running: map<Slot, Pc>)

  datatype ClusterEvent =
    | Begin(slot: Slot, cmd: Command)
    | Advance(slot: Slot, answers: Answers)
    | Kill(slot: Slot)
    | Agent(event: Runs.Event)
    | Restart

  /** The host as one running command sees it. */
  function At(c: Cluster, slot: Slot): Host
    requires slot in c.running
  {
    c.shared.(pc := c.running[slot])
  }

  predicate Suits(slot: Slot, cmd: Command) {
    match cmd
    case Add(spec) => slot == Container(spec.key.containerId)
    case Del(key) => slot == Container(key.containerId)
    case CheckOnly(_) => slot.Container?
    case GarbageCollect(_, _) => slot.Collector?
  }

  predicate Mutates(cmd: Command) { cmd.Add? || cmd.Del? }

  /** The place belongs to an ADD or DEL. */
  predicate Mutating(pc: Pc) {
    match pc
    case Idle(_) => false
    case DrainList(cmd) => Mutates(cmd)
    case DrainRemove(_, _, cmd) => Mutates(cmd)
    case DeleteBegin(_, caller) => OnBehalf(caller)
    case DeleteCleanup(_, caller) => OnBehalf(caller)
    case DeleteComplete(_, caller) => OnBehalf(caller)
    case CollectList(_, _, _, _) => false
    case CollectRecord(_) => false
    case CollectAborting(_, _) => false
    case CollectAborted(_, _) => false
    case _ => true
  }

  predicate OnBehalf(caller: Caller) { caller.OfCommand? || (caller.OfDrain? && Mutates(caller.cmd)) }

  /** The network whose queue lock a command at this place holds. */
  function Locked(pc: Pc): Option<string> {
    match pc
    case DrainRemove(_, _, cmd) => Some(NetworkOf(cmd))
    case DeleteBegin(_, caller) => LockedFor(caller)
    case DeleteCleanup(_, caller) => LockedFor(caller)
    case DeleteComplete(_, caller) => LockedFor(caller)
    case _ => None
  }

  function LockedFor(caller: Caller): Option<string> {
    if caller.OfDrain? then Some(NetworkOf(caller.cmd)) else None
  }

  /** The network whose queue lock the next step of this place needs. */
  function Wanted(pc: Pc): Option<string> {
    match pc
    case DrainList(cmd) => Some(NetworkOf(cmd))
    case Enqueue(key, _) => Some(key.network)
    case _ => None
  }

  /** Another command holds the lock this one needs. */
  predicate Blocked(c: Cluster, slot: Slot)
    requires slot in c.running
  {
    exists other :: other in c.running && other != slot && Wanted(c.running[slot]).Some? && Locked(c.running[other]) == Wanted(c.running[slot])
  }

  /** The rules a container runtime keeps when it starts a command. */
  predicate MayBegin(c: Cluster, slot: Slot, cmd: Command) {
    && slot !in c.running && Suits(slot, cmd) && Accepted(cmd)
    && (Mutates(cmd) ==> Collector !in c.running)
    && (cmd.GarbageCollect? ==> forall other :: other in c.running ==> !Mutating(c.running[other]))
  }

  function Tick(h: Host): Host { h.(clock := h.clock + 1) }

  ghost function NextCluster(node: Node, c: Cluster, e: ClusterEvent): Cluster
    requires ValidProvider(node.site.provider)
  {
    match e
    case Begin(slot, cmd) =>
      Cluster(Tick(c.shared), if MayBegin(c, slot, cmd) then c.running[slot := DrainList(cmd)] else c.running)
    case Advance(slot, a) =>
      if slot !in c.running || Blocked(c, slot) then c.(shared := Tick(c.shared))
      else
        var h := Next(node, At(c, slot), Step(a));
        Cluster(h.(pc := c.shared.pc), if h.pc.Idle? then c.running - {slot} else c.running[slot := h.pc])
    case Kill(slot) => Cluster(Tick(c.shared), c.running - {slot})
    case Agent(event) => c.(shared := Next(node, c.shared, AgentEvent(event)))
    case Restart => Cluster(Next(node, c.shared, Reboot), map[])
  }

  ghost function RunCluster(node: Node, c: Cluster, events: seq<ClusterEvent>): Cluster
    requires ValidProvider(node.site.provider)
    decreases |events|
  {
    if events == [] then c else RunCluster(node, NextCluster(node, c, events[0]), events[1..])
  }

  const FirstCluster := Cluster(FirstBoot, map[])
}
