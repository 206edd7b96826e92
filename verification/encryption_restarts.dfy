/** Exactly when a crashed agent starts again and its pending transaction goes on, with or
    without a bridge on disk, and the runs after which it does not. */
module EncryptionRestarts {
  import opened Results
  import opened EncryptionMaps
  import opened EncryptionGenerations
  import opened EncryptionRuns
  import opened EncryptionSafety

  /** The bridge on disk, if any, reaches from the current checkpoint to its admission. */
  predicate BridgeAnchored(files: Files) {
    files.bridge.Some? ==> files.current.Some? && Connects(files.bridge.value, files.current.value.desired)
  }

  /** The predecessor a controller has to extend after a restart from these files. */
  function LogicalOf(files: Files): Option<Published> {
    if files.bridge.Some? then Some(files.bridge.value.Logical()) else Generation(files.current)
  }

  /** What the files, and whether the config is zero, say about a restart. */
  predicate StartAllowed(files: Files, configured: bool) {
    if files.pending.Some? then
      && BridgeAnchored(files)
      && (files.pending.value.prior == Generation(files.current) || files.pending.value.prior == LogicalOf(files)
          || (files.bridge.None? && files.pending.value.prior == None))
    else if files.bridge.Some? && files.current.Some? && files.current.value.prior == LogicalOf(files) then configured
    else BridgeAnchored(files)
  }

  /** After a crash anywhere the agent starts again exactly when the checkpoint files allow it:
      of the kernel only a zero config behind a crossed bridge matters, bank contents never. */
  lemma {:induction false} CrashIsRecoverable(events: seq<Event>)
    ensures var w := Run(FirstBoot, events);
      w.pc == Down ==> (Next(w, Start).pc == Idle <==> StartAllowed(w.files, w.kernel.config.Some?))
  {
    hide Verified, Exact, ConfigOf, Connects, Run;
    ReachableSafe(events);
  }

  /** A pending transaction that extends what the files make the predecessor, with the config
      not left behind by an unfinished quarantine. */
  predicate Resumable(files: Files, config: Option<Config>, p: Transaction) {
    && p.prior == LogicalOf(files)
    && (files.bridge.Some? ==> config.None? || config == Some(ConfigOf(p.desired)))
  }

  /** Offered again after the restart, the pending transaction goes on exactly when it is
      resumable; otherwise it is not taken up, or the restart decision refuses it. */
  lemma {:induction false} PendingIsResumed(events: seq<Event>, a: Admitted, io: Io)
    requires var w := Run(FirstBoot, events);
      w.pc == Down && w.files.pending.Some? && Next(w, Start).pc == Idle
      && VerifiedAdmission(a) && SameIntent(a.transaction, w.files.pending.value)
    ensures var w := Run(FirstBoot, events); var p := w.files.pending.value;
      var offered := Next(Next(w, Start), Apply(a, io));
      (offered.pc == Deciding(p) && Applying(Next(offered, Step(io)).pc)) <==> Resumable(w.files, w.kernel.config, p)
  {
    hide Verified, Exact, ConfigOf, Connects, Observed, TargetImage, Run, Resumable;
    ReachableSafe(events);
    var w := Run(FirstBoot, events);
    var p := w.files.pending.value;
    var offered := Next(Next(w, Start), Apply(a, io));
    PriorIsNotDesired(p);
    if p.prior == LogicalOf(w.files) {
      assert offered == w.(mem := Memory(w.files.current, w.files.pending, w.files.bridge, true), pc := Deciding(p));
      StartSafe(w);
      ApplySafe(Next(w, Start), a, io);
      RestartObserves(offered, p);
      TargetExact(offered.kernel, p.desired);
    } else {
      NotResumable(w.files, w.kernel.config, p);
    }
  }

  lemma {:induction false} NotResumable(files: Files, config: Option<Config>, p: Transaction)
    requires p.prior != LogicalOf(files)
    ensures !Resumable(files, config, p)
  {
  }

  /** What a restarted agent sees. */
  lemma {:induction false} RestartObserves(w: World, p: Transaction)
    requires Inv(w) && w.pc == Deciding(p) && w.mem == Memory(w.files.current, w.files.pending, w.files.bridge, true)
    requires BridgeAnchored(w.files) && p.prior == LogicalOf(w.files)
    ensures Resumable(w.files, w.kernel.config, p) ==>
      Observed(w, p) == Ok(if Names(w.kernel, p.desired) then Some(p.desired) else p.prior)
    ensures !Resumable(w.files, w.kernel.config, p) ==> Observed(w, p).Err?
  {
    if w.files.bridge.Some? {
      BridgeObserves(w, p);
    } else {
      hide Verified, Exact, ConfigOf, Connects;
    }
  }

  /** Behind a bridge a nonzero config names the physical generation or the pending one. */
  lemma {:induction false} BridgeObserves(w: World, p: Transaction)
    requires Inv(w) && w.pc == Deciding(p) && w.mem == Memory(w.files.current, w.files.pending, w.files.bridge, true)
    requires BridgeAnchored(w.files) && p.prior == LogicalOf(w.files) && w.files.bridge.Some?
    ensures Resumable(w.files, w.kernel.config, p) ==>
      Observed(w, p) == Ok(if Names(w.kernel, p.desired) then Some(p.desired) else p.prior)
    ensures !Resumable(w.files, w.kernel.config, p) ==> Observed(w, p).Err?
  {
    var bridge, current := w.files.bridge.value, w.files.current.value;
    BridgeClimbs(bridge, current.desired);
    assert current.desired.generation < bridge.Logical().generation < p.desired.generation;
    assert w.kernel.config.Some? ==> w.kernel.config == Some(ConfigOf(current.desired)) || Names(w.kernel, p.desired);
    hide Verified, Exact, Connects;
  }

  /** A refused restart is refused for good: nothing that can happen while the agent is down
      changes what it refused. */
  lemma {:induction false} RefusedForever(w: World, events: seq<Event>)
    requires w.pc == Down && Next(w, Start).pc == Down
    ensures Run(w, events).pc == Down && Run(w, events).files == w.files
    decreases |events|
  {
    if events != [] {
      RefusedStays(w, events[0]);
      RefusedForever(Next(w, events[0]), events[1..]);
    }
  }

  lemma {:induction false} RefusedStays(w: World, e: Event)
    requires w.pc == Down && Next(w, Start).pc == Down
    ensures var n := Next(w, e); n.pc == Down && n.files == w.files && Next(n, Start).pc == Down
  {
    hide Verified, Connects, ConfigOf, ReadBank, Within;
  }

  lemma {:induction false} RunTwice(w: World, first: seq<Event>, second: seq<Event>)
    ensures Run(w, first + second) == Run(Run(w, first), second)
    decreases |first|
  {
    hide Next;
    if first == [] {
      assert first + second == second;
    } else {
      assert (first + second)[1..] == first[1..] + second;
      RunTwice(Next(w, first[0]), first[1..], second);
    }
  }

  lemma {:induction false} RunThree(w: World, a: Event, b: Event, c: Event)
    ensures Run(w, [a, b, c]) == Next(Next(Next(w, a), b), c)
  {
    hide Next;
    assert [a, b, c][1..] == [b, c] && [b, c][1..] == [c] && [c][1..] == [];
    assert Run(Next(Next(w, a), b), [c]) == Run(Next(Next(Next(w, a), b), c), []);
  }

  lemma {:induction false} RunFour(w: World, a: Event, b: Event, c: Event, d: Event)
    ensures Run(w, [a, b, c, d]) == Next(Next(Next(Next(w, a), b), c), d)
  {
    hide Next;
    assert [a, b, c, d][1..] == [b, c, d];
    RunThree(Next(w, a), b, c, d);
  }

  /** An idle agent with nothing pending whose kernel shows the current generation. */
  predicate Resting(w: World) {
    && w.pc == Idle && w.files.pending.None? && w.mem.pending.None? && w.mem.bridge.None?
    && w.mem.active == w.files.current
    && (if w.files.current.Some? then Names(w.kernel, w.files.current.value.desired) else w.kernel.config.None?)
  }

  /** A generation that extends the current one, with the tables its staging leaves. */
  ghost predicate Publishable(w: World, a: Admitted, tables: Tables) {
    && VerifiedAdmission(a) && a.transaction.prior == Generation(w.files.current)
    && Within(w.kernel.tables, tables, a.transaction.desired.bank) && Exact(tables, a.transaction.desired)
  }

  /** Offering, staging and flipping a generation, up to the rename of its checkpoint. */
  function PublishEvents(a: Admitted, tables: Tables): seq<Event> {
    [Apply(a, Done), Step(Done), Write(tables), Step(Done)] + [Step(Done), Step(Done), Step(Done)]
  }

  function AtRename(w: World, t: Transaction, tables: Tables): World {
    w.(files := w.files.(pending := Some(t.(phase := Committed))),
       kernel := w.kernel.(tables := tables, config := Some(ConfigOf(t.desired))), pc := Renaming)
  }

  /** The same generation with its target bank written and its checkpoint still Prepared. */
  function AtSettled(w: World, t: Transaction, tables: Tables): World {
    w.(files := w.files.(pending := Some(t)), kernel := w.kernel.(tables := tables), pc := Settled(t, true))
  }

  lemma {:induction false} PublishReachesRename(w: World, a: Admitted, tables: Tables)
    requires Resting(w) && Publishable(w, a, tables)
    ensures Run(w, PublishEvents(a, tables)) == AtRename(w, a.transaction, tables)
  {
    hide Run, Next;
    var settled := AtSettled(w, a.transaction, tables);
    RunTwice(w, [Apply(a, Done), Step(Done), Write(tables), Step(Done)], [Step(Done), Step(Done), Step(Done)]);
    RunFour(w, Apply(a, Done), Step(Done), Write(tables), Step(Done));
    RunThree(settled, Step(Done), Step(Done), Step(Done));
    PublishSettles(w, a, tables);
    SettledReachesRename(w, a.transaction, tables);
  }

  lemma {:induction false} PublishSettles(w: World, a: Admitted, tables: Tables)
    requires Resting(w) && Publishable(w, a, tables)
    ensures Next(Next(Next(Next(w, Apply(a, Done)), Step(Done)), Write(tables)), Step(Done)) == AtSettled(w, a.transaction, tables)
  {
    hide Exact, Within, TargetImage;
    var t := a.transaction;
    var deciding := w.(files := w.files.(pending := Some(t)), pc := Deciding(t));
    assert Next(w, Apply(a, Done)) == deciding;
    assert w.kernel.config != Some(ConfigOf(t.desired));
    assert Observed(deciding, t) == Ok(t.prior);
    assert Next(deciding, Step(Done)) == deciding.(pc := Staging(t));
  }

  lemma {:induction false} SettledReachesRename(w: World, t: Transaction, tables: Tables)
    requires Exact(tables, t.desired) && t.phase == Prepared
    ensures Next(Next(Next(AtSettled(w, t, tables), Step(Done)), Step(Done)), Step(Done)) == AtRename(w, t, tables)
  {
    hide ConfigOf;
  }

  /** A generation whose rename takes effect without being reported, offered again before a crash. */
  function LostRename(a: Admitted, tables: Tables): seq<Event> {
    PublishEvents(a, tables) + [Step(FailedAfter), Apply(a, Done), Crash]
  }

  /** The lost rename leaves the generation both current and pending. */
  lemma {:induction false} LostRenameLeaves(w: World, a: Admitted, tables: Tables)
    requires Resting(w) && Publishable(w, a, tables)
    ensures var n := Run(w, LostRename(a, tables));
      && n.pc == Down
      && n.files == w.files.(current := Some(a.transaction.(phase := Committed)), pending := Some(a.transaction))
  {
    hide Verified, Exact, Within, ConfigOf, Connects, Run;
    PublishReachesRename(w, a, tables);
    RunTwice(w, PublishEvents(a, tables), [Step(FailedAfter), Apply(a, Done), Crash]);
    RunThree(AtRename(w, a.transaction, tables), Step(FailedAfter), Apply(a, Done), Crash);
  }

  /** After a lost rename without a bridge the checkpoint files never change again. With a
      predecessor the restart is refused for good; the first generation of all restarts, but
      no admission, no bridge and no further restart ever takes it up. */
  lemma {:induction false} LostRenameIsFinal(w: World, a: Admitted, tables: Tables, later: seq<Event>)
    requires Resting(w) && w.files.bridge.None? && Publishable(w, a, tables)
    ensures var n := Run(w, LostRename(a, tables)); var end := Run(n, later);
      && end.files == n.files
      && (a.transaction.prior.Some? ==> end.pc == Down)
      && (end.pc == Down || end.pc == Idle)
  {
    hide Run, Within, Exact, Connects;
    var n := Run(w, LostRename(a, tables));
    LostRenameLeaves(w, a, tables);
    PriorIsNotDesired(a.transaction);
    if a.transaction.prior.Some? {
      RefusedForever(n, later);
    } else {
      StrandedForever(n, later);
    }
  }

  /** A first generation both current and pending, its agent down or started from these files. */
  predicate Stranded(w: World) {
    && w.files.current.Some? && w.files.pending.Some? && w.files.bridge.None? && w.files.pending.value.prior.None?
    && (w.pc == Down || (w.pc == Idle && w.mem == Memory(w.files.current, w.files.pending, None, true)))
  }

  lemma {:induction false} StrandedForever(w: World, events: seq<Event>)
    requires Stranded(w)
    ensures Stranded(Run(w, events)) && Run(w, events).files == w.files
    decreases |events|
  {
    if events != [] {
      StrandedStays(w, events[0]);
      StrandedForever(Next(w, events[0]), events[1..]);
    }
  }

  lemma {:induction false} StrandedStays(w: World, e: Event)
    requires Stranded(w)
    ensures Stranded(Next(w, e)) && Next(w, e).files == w.files
  {
    hide Verified, Exact, ConfigOf, Within;
  }

  /** The bridge over a single skipped generation. */
  function OneStep(skipped: Admitted): Bridge {
    Bridge.Bridge(BRIDGE_SCHEMA, [], skipped)
  }

  /** A bridge whose write takes effect unreported, then a generation published as usual. */
  function StrayBridge(skipped: Admitted, a: Admitted, tables: Tables): seq<Event> {
    [Event.Bridge(skipped, FailedAfter)] + PublishEvents(a, tables) + [Step(Done), Crash, Start]
  }

  /** A bridge file nobody knows of survives the next publication and then stops every
      restart, although memory, kernel and current checkpoint agreed before the crash. */
  lemma {:induction false} StrayBridgeIsFinal(w: World, skipped: Admitted, a: Admitted, tables: Tables, later: seq<Event>)
    requires Resting(w) && w.files.current.Some? && Publishable(w, a, tables)
    requires VerifiedAdmission(skipped) && skipped.transaction.prior == Generation(w.files.current)
    ensures var end := Run(Run(w, StrayBridge(skipped, a, tables)), later);
      && end.pc == Down
      && end.files == Files(Some(a.transaction.(phase := Committed)), None, Some(OneStep(skipped)))
  {
    hide Run, Within, Exact, Next;
    var stray := w.(files := w.files.(bridge := Some(OneStep(skipped))));
    var renaming := AtRename(stray, a.transaction, tables);
    StrayBridgeRuns(w, skipped, a, tables);
    StrayBridgeWritten(w, skipped);
    PublishReachesRename(stray, a, tables);
    RunThree(renaming, Step(Done), Crash, Start);
    StrayBridgeRefused(stray, skipped, a, tables);
    RefusedForever(Next(Next(renaming, Step(Done)), Crash), later);
  }

  lemma {:induction false} StrayBridgeRuns(w: World, skipped: Admitted, a: Admitted, tables: Tables)
    ensures Run(w, StrayBridge(skipped, a, tables))
         == Run(Run(Next(w, Event.Bridge(skipped, FailedAfter)), PublishEvents(a, tables)), [Step(Done), Crash, Start])
  {
    hide Next;
    var first, middle := [Event.Bridge(skipped, FailedAfter)], PublishEvents(a, tables);
    RunTwice(w, first + middle, [Step(Done), Crash, Start]);
    RunTwice(w, first, middle);
    assert first[1..] == [];
    assert Run(w, first) == Next(w, first[0]);
  }

  lemma {:induction false} StrayBridgeWritten(w: World, skipped: Admitted)
    requires Resting(w) && w.files.current.Some?
    requires VerifiedAdmission(skipped) && skipped.transaction.prior == Generation(w.files.current)
    ensures Next(w, Event.Bridge(skipped, FailedAfter))
         == w.(files := w.files.(bridge := Some(OneStep(skipped))))
  {
    hide Verified, Names;
  }

  lemma {:induction false} StrayBridgeRefused(w: World, skipped: Admitted, a: Admitted, tables: Tables)
    requires Resting(w) && w.files.current.Some? && Publishable(w, a, tables)
    requires w.files.bridge == Some(OneStep(skipped))
    requires VerifiedAdmission(skipped) && skipped.transaction.prior == Generation(w.files.current)
    ensures var down := Next(Next(AtRename(w, a.transaction, tables), Step(Done)), Crash);
      && down.pc == Down && Next(down, Start) == down
      && down.files == w.files.(current := Some(a.transaction.(phase := Committed)))
  {
    hide Exact, Within, ConfigOf, Names;
    PriorIsNotDesired(a.transaction);
    PriorIsNotDesired(skipped.transaction);
    assert !Connects(w.files.bridge.value, a.transaction.desired);
  }

  /** One bank's image laid over the pinned tables. */
  function Overlay(below: Tables, above: Tables): Tables {
    Tables(below.decisions + above.decisions, below.transports + above.transports,
           below.ipv4Paths + above.ipv4Paths, below.ipv6Paths + above.ipv6Paths)
  }

  lemma {:induction false} OverlayFills(below: Tables, p: Published)
    requires BankImage(p.image, p.bank) && ReadBank(below, p.bank) == EMPTY_BANK
    ensures Exact(Overlay(below, p.image), p) && Within(below, Overlay(below, p.image), p.bank)
  {
    OverlayShare(below.decisions, p.image.decisions, p.bank);
    OverlayShare(below.transports, p.image.transports, p.bank);
    OverlayShare(below.ipv4Paths, p.image.ipv4Paths, p.bank);
    OverlayShare(below.ipv6Paths, p.image.ipv6Paths, p.bank);
  }

  lemma {:induction false} OverlayShare(below: Entries, above: Entries, bank: nat)
    requires InBank(above, bank) && Share(below, bank) == map[]
    ensures Share(below + above, bank) == above && SameElsewhere(below, below + above, bank)
  {
    assert forall k :: k in below && k.bank == bank ==> k in Share(below, bank);
  }

  /** The pinned tables after a node's first and after its second generation. */
  function FirstTables(a: Admitted): Tables { Overlay(EMPTY_BANK, a.transaction.desired.image) }
  function SecondTables(a: Admitted, b: Admitted): Tables { Overlay(FirstTables(a), b.transaction.desired.image) }

  /** The node's first generation and one that extends it. */
  predicate Successive(a: Admitted, b: Admitted) {
    && VerifiedAdmission(a) && a.transaction.prior.None?
    && VerifiedAdmission(b) && b.transaction.prior == Some(a.transaction.desired)
  }

  const STARTED := FirstBoot.(pc := Idle)

  /** The agent after its first generation was published and reported. */
  function AfterFirst(a: Admitted): World {
    var current := Some(a.transaction.(phase := Committed));
    World(Files(current, None, None), Kernel(FirstTables(a), Some(ConfigOf(a.transaction.desired)), {}),
          Memory(current, None, None, false), Idle)
  }

  function PublishFirst(a: Admitted): seq<Event> { [Start] + PublishEvents(a, FirstTables(a)) + [Step(Done)] }

  lemma {:induction false} StartIsResting(events: seq<Event>)
    ensures Resting(STARTED) && Run(FirstBoot, [Start] + events) == Run(STARTED, events)
  {
    hide Run;
    RunTwice(FirstBoot, [Start], events);
    RunOne(FirstBoot, Start);
  }

  lemma {:induction false} RunOne(w: World, e: Event)
    ensures Run(w, [e]) == Next(w, e)
  {
    hide Next;
    assert [e][1..] == [];
  }

  lemma {:induction false} FirstPublishable(a: Admitted)
    requires VerifiedAdmission(a) && a.transaction.prior.None?
    ensures Publishable(STARTED, a, FirstTables(a))
  {
    hide Overlay, Within, Exact;
    OverlayFills(EMPTY_BANK, a.transaction.desired);
  }

  lemma {:induction false} SecondPublishable(a: Admitted, b: Admitted)
    requires Successive(a, b)
    ensures Resting(AfterFirst(a)) && Publishable(AfterFirst(a), b, SecondTables(a, b))
  {
    hide Overlay, Within, Exact, ConfigOf;
    OverlayFills(EMPTY_BANK, a.transaction.desired);
    WithinKeepsOtherBanks(EMPTY_BANK, FirstTables(a), a.transaction.desired.bank, b.transaction.desired.bank);
    OverlayFills(FirstTables(a), b.transaction.desired);
  }

  lemma {:induction false} FirstIsPublished(a: Admitted, events: seq<Event>)
    requires VerifiedAdmission(a) && a.transaction.prior.None?
    ensures Run(FirstBoot, PublishFirst(a) + events) == Run(AfterFirst(a), events)
  {
    hide Run, Publishable, Overlay, ConfigOf, Verified;
    FirstPublishable(a);
    StartIsResting(PublishEvents(a, FirstTables(a)));
    PublishReachesRename(STARTED, a, FirstTables(a));
    RunTwice(FirstBoot, [Start] + PublishEvents(a, FirstTables(a)), [Step(Done)]);
    RunOne(AtRename(STARTED, a.transaction, FirstTables(a)), Step(Done));
    RunTwice(FirstBoot, PublishFirst(a), events);
  }

  /** A node's first generation, its rename lost, is never taken up again. */
  lemma {:induction false} PendingCanBeStranded(a: Admitted, later: seq<Event>)
    requires VerifiedAdmission(a) && a.transaction.prior.None?
    ensures var n := Run(FirstBoot, [Start] + LostRename(a, FirstTables(a)));
      && n.pc == Down && n.files.pending == Some(a.transaction) && Next(n, Start).pc == Idle
      && Run(n, later).files == n.files && (Run(n, later).pc == Down || Run(n, later).pc == Idle)
  {
    hide Run, Publishable, Overlay;
    FirstPublishable(a);
    StartIsResting(LostRename(a, FirstTables(a)));
    LostRenameLeaves(STARTED, a, FirstTables(a));
    LostRenameIsFinal(STARTED, a, FirstTables(a), later);
  }

  /** Every later generation whose rename is lost stops the agent from ever starting again. */
  lemma {:induction false} RestartCanBeRefused(a: Admitted, b: Admitted, later: seq<Event>)
    requires Successive(a, b)
    ensures var n := Run(FirstBoot, PublishFirst(a) + LostRename(b, SecondTables(a, b)));
      && n.files.current == Some(b.transaction.(phase := Committed)) && n.files.pending == Some(b.transaction)
      && Run(n, later).pc == Down && Run(n, later).files == n.files
  {
    hide Run, Publishable, Overlay;
    FirstIsPublished(a, LostRename(b, SecondTables(a, b)));
    SecondPublishable(a, b);
    LostRenameLeaves(AfterFirst(a), b, SecondTables(a, b));
    LostRenameIsFinal(AfterFirst(a), b, SecondTables(a, b), later);
  }

  /** A bridge written but unreported, then an ordinary generation: no restart succeeds. */
  lemma {:induction false} BridgeCanBlockRestart(a: Admitted, skipped: Admitted, b: Admitted, later: seq<Event>)
    requires Successive(a, skipped) && Successive(a, b)
    ensures var n := Run(FirstBoot, PublishFirst(a) + StrayBridge(skipped, b, SecondTables(a, b)));
      && n.files.pending.None? && n.files.current == Some(b.transaction.(phase := Committed))
      && Run(n, later).pc == Down && Run(n, later).files == n.files
  {
    hide Run, Publishable, Overlay;
    FirstIsPublished(a, StrayBridge(skipped, b, SecondTables(a, b)));
    SecondPublishable(a, b);
    StrayBridgeIsFinal(AfterFirst(a), skipped, b, SecondTables(a, b), later);
    StrayBridgeIsFinal(AfterFirst(a), skipped, b, SecondTables(a, b), []);
    RunNothing(Run(AfterFirst(a), StrayBridge(skipped, b, SecondTables(a, b))));
  }

  lemma {:induction false} RunNothing(w: World)
    ensures Run(w, []) == w
  {
  }
}
