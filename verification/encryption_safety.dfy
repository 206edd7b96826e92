/** What holds at every crash point. */
module EncryptionSafety {
  import opened Results
  import opened EncryptionMaps
  import opened EncryptionGenerations
  import opened EncryptionRuns

  /** The config names the current checkpoint's exact bank; it is zero only before the
      first generation or behind a bridge. */
  predicate Base(files: Files, k: Kernel) {
    if k.config.Some? then files.current.Some? && Names(k, files.current.value.desired)
    else files.current.None? || files.bridge.Some?
  }

  /** What the kernel shows for each phase of the pending file. */
  predicate Matches(files: Files, k: Kernel) {
    if files.pending.None? then Base(files, k)
    else
      var p := files.pending.value;
      match p.phase
      case Prepared => Base(files, k)
      case Staged => (Base(files, k) && Exact(k.tables, p.desired)) || Names(k, p.desired)
      case Committed => Names(k, p.desired)
      case RolledBack => false
  }

  predicate FilesValid(files: Files, k: Kernel) {
    && (files.current.Some? ==> Verified(files.current.value) && files.current.value.phase == Committed)
    && (files.pending.Some? ==> Verified(files.pending.value))
    && (files.bridge.Some? ==> files.current.Some?)
    && (files.current.None? && files.pending.None? ==> Quiescent(k))
  }

  /** Memory never claims more than the files hold. */
  predicate MemoryValid(w: World) {
    && (w.mem.active.Some? ==> w.files.current.Some?)
    && (w.mem.bridge.Some? ==> w.files.bridge.Some?)
  }

  predicate PcValid(w: World) {
    match w.pc
    case Down => true
    case Idle =>
      if w.mem.pending.Some? then w.mem.pending == w.files.pending
      else w.files.pending.Some? ==> w.files.pending.value.phase == Prepared
    case Deciding(p) => w.files.pending == Some(p)
    case Staging(p) =>
      && w.files.pending == Some(p) && p.phase == Prepared
      && (w.kernel.config.Some? ==> w.kernel.config.value.bank != p.desired.bank)
    case Settled(p, flip) =>
      && w.files.pending == Some(p) && p.phase == Prepared && Exact(w.kernel.tables, p.desired)
      && (!flip ==> Names(w.kernel, p.desired))
    case Flipping(p) => w.files.pending == Some(p) && p.phase == Staged && Exact(w.kernel.tables, p.desired)
    case Committing(p) => w.files.pending == Some(p) && p.phase == Staged && Names(w.kernel, p.desired)
    case Renaming => w.files.pending.Some? && w.files.pending.value.phase == Committed
    case Finishing =>
      w.files.pending.None? && w.files.current.Some? && Names(w.kernel, w.files.current.value.desired) && w.mem.pending.None? && w.mem.bridge.None?
    case Quarantining => Quarantine(w)
    case Purging => Quarantine(w) && w.kernel.config.None?
    case Dropping => Quarantine(w) && w.kernel.config.None?
  }

  predicate Quarantine(w: World) {
    && w.files.bridge.Some?
    && (w.mem.pending.Some? ==> w.mem.pending == w.files.pending)
    && (w.files.pending.Some? ==> w.files.pending.value.phase == Prepared)
  }

  predicate Inv(w: World) {
    FilesValid(w.files, w.kernel) && Matches(w.files, w.kernel) && MemoryValid(w) && PcValid(w)
  }

  lemma {:induction false} StartSafe(w: World)
    requires Inv(w)
    ensures Inv(Next(w, Start))
  {
    hide Verified, Exact, Connects, Quiescent, ConfigOf;
  }

  lemma {:induction false} ApplySafe(w: World, a: Admitted, io: Io)
    requires Inv(w)
    ensures Inv(StepApply(w, a, io))
  {
  }

  lemma {:induction false} BridgeSafe(w: World, a: Admitted, io: Io)
    requires Inv(w)
    ensures Inv(StepBridge(w, a, io))
  {
  }

  /** What the kernel can show while a transaction is being decided. */
  lemma {:induction false} ObservedCases(w: World, p: Transaction)
    requires Verified(p) && Observed(w, p).Ok?
    ensures Observed(w, p).value == Some(p.desired) <==> Names(w.kernel, p.desired)
    ensures Observed(w, p).value == p.prior && w.kernel.config.Some? ==> w.kernel.config.value.bank != p.desired.bank
  {
    hide Exact, Connects, BankImage;
  }

  lemma {:induction false} TargetExact(k: Kernel, p: Published)
    ensures TargetImage(k, p) == Some(p.image) <==> Exact(k.tables, p)
  {
  }

  /** The restart decision never leads to a write into the bank the config points to. */
  lemma {:induction false} DecideSafe(w: World, p: Transaction)
    requires Inv(w) && w.pc == Deciding(p)
    ensures Inv(StepDecide(w, p))
  {
    hide Observed, TargetImage, Exact, Verified, Quiescent, ConfigOf;
    if Observed(w, p).Ok? {
      ObservedCases(w, p);
      PriorIsNotDesired(p);
      TargetExact(w.kernel, p.desired);
    }
  }

  lemma {:induction false} PriorIsNotDesired(p: Transaction)
    requires Verified(p)
    ensures p.prior != Some(p.desired)
  {
  }

  lemma {:induction false} WriteSafe(w: World, tables: Tables)
    requires Inv(w) && w.pc.Staging? && Within(w.kernel.tables, tables, w.pc.p.desired.bank)
    ensures Inv(Next(w, Write(tables)))
  {
    if w.files.current.Some? && w.kernel.config.Some? {
      WithinKeepsOtherBanks(w.kernel.tables, tables, w.pc.p.desired.bank, w.files.current.value.desired.bank);
    }
  }

  lemma {:induction false} PhaseIsFree(p: Transaction, phase: TransactionPhase)
    requires Verified(p)
    ensures Verified(p.(phase := phase))
  {
  }

  lemma {:induction false} StepSafe(w: World, io: Io)
    requires Inv(w)
    ensures Inv(StepOn(w, io))
  {
    hide StepDecide, Verified, Exact, Quiescent, ConfigOf;
    match w.pc
    case Deciding(p) => DecideSafe(w, p);
    case Settled(p, _) => PhaseIsFree(p, Staged);
    case Committing(p) => PhaseIsFree(p, Committed);
    case Down =>
    case Idle =>
    case Staging(_) =>
    case Flipping(_) =>
    case Renaming =>
    case Finishing =>
    case Quarantining =>
    case Purging =>
    case Dropping =>
  }

  lemma {:induction false} NextSafe(w: World, e: Event)
    requires Inv(w)
    ensures Inv(Next(w, e))
  {
    match e
    case Start => StartSafe(w);
    case Crash =>
    case Flow(_) =>
    case Apply(a, io) => ApplySafe(w, a, io);
    case Bridge(a, io) => BridgeSafe(w, a, io);
    case Write(tables) => if w.pc.Staging? && Within(w.kernel.tables, tables, w.pc.p.desired.bank) { WriteSafe(w, tables); }
    case Purge(_) =>
    case Step(io) => StepSafe(w, io);
    case Abort =>
  }

  lemma {:induction false} RunSafe(w: World, events: seq<Event>)
    requires Inv(w)
    ensures Inv(Run(w, events))
    decreases |events|
  {
    if events != [] {
      NextSafe(w, events[0]);
      RunSafe(Next(w, events[0]), events[1..]);
    }
  }

  lemma {:induction false} ReachableSafe(events: seq<Event>)
    ensures Inv(Run(FirstBoot, events))
  {
    assert Inv(FirstBoot);
    RunSafe(FirstBoot, events);
  }

  /** At every point of every run, crashes included, the config is zero or names the
      generation of the current or the pending checkpoint file, whose bank is exact. */
  lemma {:induction false} ConfigNamesExactBank(events: seq<Event>)
    ensures var w := Run(FirstBoot, events);
      w.kernel.config.Some? ==>
        || (w.files.current.Some? && Names(w.kernel, w.files.current.value.desired))
        || (w.files.pending.Some? && Names(w.kernel, w.files.pending.value.desired))
  {
    ReachableSafe(events);
  }

  /** No step of any run writes an entry of the bank a nonzero config points to. */
  lemma {:induction false} WritesAvoidLiveBank(events: seq<Event>, e: Event)
    ensures var w := Run(FirstBoot, events);
      var after := Next(w, e).kernel;
      w.kernel.config.Some? ==> ReadBank(after.tables, w.kernel.config.value.bank) == ReadBank(w.kernel.tables, w.kernel.config.value.bank)
  {
    hide Run, FilesValid, Matches, MemoryValid, ReadBank, Within;
    ReachableSafe(events);
    var w := Run(FirstBoot, events);
    if e.Write? {
      if w.kernel.config.Some? && w.pc.Staging? && Within(w.kernel.tables, e.tables, w.pc.p.desired.bank) {
        WithinKeepsOtherBanks(w.kernel.tables, e.tables, w.pc.p.desired.bank, w.kernel.config.value.bank);
      }
    } else {
      OthersKeepTables(w, e);
    }
  }

  lemma {:induction false} OthersKeepTables(w: World, e: Event)
    requires !e.Write?
    ensures Next(w, e).kernel.tables == w.kernel.tables
  {
    hide Observed, TargetImage, Started, Verified, Exact, Connects, ConfigOf, FirstBridge, AdvancedBridge;
  }
}
