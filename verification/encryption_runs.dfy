/** The encryption map synchronizer as a crash step system: the checkpoint files, the pinned
    kernel maps, the agent's memory and its place in an operation. */
module EncryptionRuns {
  import opened Results
  import opened EncryptionMaps
  import opened EncryptionGenerations

  /** A file operation, or one that fails before or after taking effect. */
  datatype Io = Done | FailedBefore | FailedAfter

  datatype Files = Files(current: Option<Transaction>, pending: Option<Transaction>, bridge: Option<Bridge>)

  /** `config` is None while the shared config record is zero. */
  datatype Kernel = Kernel(tables: Tables, config: Option<Config>, connections: set<nat>)

  datatype Memory = Memory(active: Option<Transaction>, pending: Option<Transaction>, bridge: Option<Bridge>, revalidate: bool)

  /** Where the agent stands between two effects. */
  datatype Pc =
    | Down
    | Idle
    | Deciding(p: Transaction)
    | Staging(p: Transaction)
    | Settled(p: Transaction, flip: bool)
    | Flipping(p: Transaction)
    | Committing(p: Transaction)
    | Renaming
    | Finishing
    | Quarantining
    | Purging
    | Dropping

  datatype World = World(files: Files, kernel: Kernel, mem: Memory, pc: Pc)

  datatype Event =
    | Start
    | Crash
    | Flow(connection: nat)
    | Apply(admitted: Admitted, io: Io)
    | Bridge(skipped: Admitted, persist: Io)
    | Write(tables: Tables)
    | Purge(gone: set<nat>)
    | Step(outcome: Io)
    | Abort

  function Generation(t: Option<Transaction>): Option<Published> {
    if t.Some? then Some(t.value.desired) else None
  }

  predicate Exact(tables: Tables, p: Published) {
    ReadBank(tables, p.bank) == p.image
  }

  /** The config names this generation and its bank holds exactly this image. */
  predicate Names(k: Kernel, p: Published) {
    k.config == Some(ConfigOf(p)) && Exact(k.tables, p)
  }

  predicate Quiescent(k: Kernel) {
    k.config == None && ReadBank(k.tables, 0) == EMPTY_BANK && ReadBank(k.tables, 1) == EMPTY_BANK && k.connections == {}
  }

  /** A bridge without a physical map it connects to stops the start. */
  function Anchored(files: Files, mem: Memory): Option<(Files, Memory)> {
    if mem.bridge.Some? && !(mem.active.Some? && Connects(mem.bridge.value, mem.active.value.desired)) then None
    else Some((files, mem))
  }

  /** What a restart makes of files and kernel, or None when it refuses to start. */
  function Started(files: Files, k: Kernel): Option<(Files, Memory)> {
    if files.current.Some? && (files.current.value.phase != Committed || !Verified(files.current.value)) then None
    else if files.pending.Some? then
      var bridged := if files.bridge.Some? then Some(files.bridge.value.Logical()) else None;
      if !Verified(files.pending.value)
         || (files.pending.value.prior != Generation(files.current) && files.pending.value.prior != bridged) then None
      else Anchored(files, Memory(files.current, files.pending, files.bridge, true))
    else if files.current.Some? then
      var physical := files.current.value.desired;
      if files.bridge.None? then
        if Names(k, physical) then Some((files, Memory(files.current, None, None, true))) else None
      else if files.current.value.prior == Some(files.bridge.value.Logical()) then
        if Names(k, physical) then Some((files.(bridge := None), Memory(files.current, None, None, true))) else None
      else if !Connects(files.bridge.value, physical) || !(k.config == None || Names(k, physical)) then None
      else Anchored(files, Memory(files.current, None, files.bridge, true))
    else if Quiescent(k) then Anchored(files, Memory(None, None, files.bridge, false))
    else None
  }

  /** The predecessor the controller must extend. */
  function LogicalPredecessor(mem: Memory): Option<Published> {
    if mem.bridge.Some? then Some(mem.bridge.value.Logical()) else Generation(mem.active)
  }

  /** A failed application reloads its durable intent and waits for revalidation. */
  function FailApply(w: World): World {
    w.(mem := w.mem.(pending := w.files.pending, revalidate := true), pc := Idle)
  }

  function StepApply(w: World, a: Admitted, io: Io): World {
    if w.pc != Idle || !VerifiedAdmission(a) then w
    else if a.transaction.prior == LogicalPredecessor(w.mem) then
      if w.mem.pending.Some? then
        if SameIntent(a.transaction, w.mem.pending.value) then w.(pc := Deciding(w.mem.pending.value)) else w
      else if w.files.pending.Some? then w
      else match io
        case Done => w.(files := w.files.(pending := Some(a.transaction)), pc := Deciding(a.transaction))
        case FailedBefore => w
        case FailedAfter => w.(files := w.files.(pending := Some(a.transaction)))
    else if Some(a.transaction.desired) == LogicalPredecessor(w.mem) && w.mem.pending.None?
            && w.mem.active.Some? && Names(w.kernel, w.mem.active.value.desired) then
      w.(mem := w.mem.(revalidate := false))
    else w
  }

  /** The generation the kernel shows, judged against the checkpoint in force and the
      pending one; Err when it shows neither. */
  function Observed(w: World, p: Transaction): Result<Option<Published>, ()> {
    var current := if w.mem.bridge.Some? then Some(w.mem.bridge.value.admitted.transaction) else w.mem.active;
    if Names(w.kernel, p.desired) then Ok(Some(p.desired))
    else if w.kernel.config == None && w.mem.bridge.Some? && p.prior == Some(w.mem.bridge.value.Logical())
            && w.mem.active.Some? && Connects(w.mem.bridge.value, w.mem.active.value.desired) then Ok(Generation(current))
    else if current.Some? then
      if Names(w.kernel, current.value.desired) then Ok(Some(current.value.desired)) else Err(())
    else if w.kernel.config == None then Ok(None)
    else Err(())
  }

  function TargetImage(k: Kernel, p: Published): Option<Tables> {
    var observed := ReadBank(k.tables, p.bank);
    if observed == p.image then Some(observed) else if observed == EMPTY_BANK then None else Some(observed)
  }

  /** After a published generation became current: memory follows the files. */
  function Finish(w: World): World {
    w.(mem := Memory(w.files.current, None, None, false), pc := if w.mem.bridge.Some? then Finishing else Idle)
  }

  function StepDecide(w: World, p: Transaction): World {
    var active := Observed(w, p);
    if active.Err? then FailApply(w)
    else match Recover(p, active.value, TargetImage(w.kernel, p.desired))
      case Restage => w.(pc := Staging(p))
      case Activate => w.(pc := Flipping(p))
      case CommitObserved => w.(pc := if p.phase == Prepared then Settled(p, false) else Committing(p))
      case Reuse => w.(pc := Renaming)
      case RollbackComplete => Finish(w.(files := w.files.(pending := None)))
      case Refuse => FailApply(w)
  }

  /** Replaces the pending checkpoint by its next phase. */
  function StepPersist(w: World, next: Transaction, io: Io, pc: Pc): World {
    var written := if io == FailedBefore then w else w.(files := w.files.(pending := Some(next)));
    if io == Done then written.(pc := pc) else FailApply(written)
  }

  function StepRename(w: World, io: Io): World {
    var renamed := if io == FailedBefore then w else w.(files := w.files.(current := w.files.pending, pending := None));
    if io == Done then Finish(renamed) else FailApply(renamed)
  }

  function StepBridge(w: World, a: Admitted, io: Io): World {
    if w.pc != Idle || !VerifiedAdmission(a) || w.mem.active.None? then w
    else if w.mem.pending.Some? && w.mem.pending.value != a.transaction then w
    else
      var physical := w.mem.active.value.desired;
      var bridge :=
        if w.mem.bridge.None? then FirstBridge(physical, a)
        else if w.mem.bridge.value.admitted == a then
          if Connects(w.mem.bridge.value, physical) then w.mem.bridge else None
        else AdvancedBridge(w.mem.bridge.value, physical, a);
      if bridge.None? then w
      else if w.mem.bridge == bridge then w.(pc := Quarantining)
      else match io
        case Done => w.(files := w.files.(bridge := bridge), mem := w.mem.(bridge := bridge), pc := Quarantining)
        case FailedBefore => w
        case FailedAfter => w.(files := w.files.(bridge := bridge))
  }

  /** The last quarantine effect: forget the bridged pending transaction. */
  function StepDrop(w: World, io: Io): World {
    if w.mem.pending.None? then w.(mem := w.mem.(revalidate := true), pc := Idle)
    else
      var removed := if io == FailedBefore then w.files else w.files.(pending := None);
      w.(files := removed, mem := w.mem.(pending := None, revalidate := w.mem.revalidate || io == Done), pc := Idle)
  }

  function StepOn(w: World, io: Io): World {
    match w.pc
    case Down => w
    case Idle => w
    case Deciding(p) => StepDecide(w, p)
    case Staging(p) => if Exact(w.kernel.tables, p.desired) then w.(pc := Settled(p, true)) else FailApply(w)
    case Settled(p, flip) =>
      var staged := p.(phase := Staged);
      StepPersist(w, staged, io, if flip then Flipping(staged) else Committing(staged))
    case Flipping(p) =>
      var flipped := w.(kernel := w.kernel.(config := Some(ConfigOf(p.desired))));
      if Exact(w.kernel.tables, p.desired) then flipped.(pc := Committing(p)) else FailApply(flipped)
    case Committing(p) => StepPersist(w, p.(phase := Committed), io, Renaming)
    case Renaming => StepRename(w, io)
    case Finishing =>
      w.(files := if io == FailedBefore then w.files else w.files.(bridge := None), pc := Idle)
    case Quarantining => w.(kernel := w.kernel.(config := None), pc := Purging)
    case Purging => if w.kernel.connections == {} then w.(pc := Dropping) else w.(pc := Idle)
    case Dropping => StepDrop(w, io)
  }

  predicate Applying(pc: Pc) {
    pc.Deciding? || pc.Staging? || pc.Settled? || pc.Flipping? || pc.Committing? || pc.Renaming?
  }

  ghost function Next(w: World, e: Event): World {
    match e
    case Start =>
      var started := Started(w.files, w.kernel);
      if w.pc != Down || started.None? then w
      else w.(files := started.value.0, mem := started.value.1, pc := Idle)
    case Crash => w.(mem := Memory(None, None, None, false), pc := Down)
    case Flow(connection) =>
      if w.kernel.config.None? then w else w.(kernel := w.kernel.(connections := w.kernel.connections + {connection}))
    case Apply(a, io) => StepApply(w, a, io)
    case Bridge(a, io) => StepBridge(w, a, io)
    case Write(tables) =>
      if w.pc.Staging? && Within(w.kernel.tables, tables, w.pc.p.desired.bank) then w.(kernel := w.kernel.(tables := tables)) else w
    case Purge(gone) =>
      if w.pc == Purging then w.(kernel := w.kernel.(connections := w.kernel.connections - gone)) else w
    case Step(io) => StepOn(w, io)
    case Abort => if Applying(w.pc) then FailApply(w) else if w.pc == Down then w else w.(pc := Idle)
  }

  ghost function Run(w: World, events: seq<Event>): World
    decreases |events|
  {
    if events == [] then w else Run(Next(w, events[0]), events[1..])
  }

  /** Empty pinned maps, no checkpoint. */
  const FirstBoot := World(Files(None, None, None), Kernel(EMPTY_BANK, None, {}), Memory(None, None, None, false), Down)
}
