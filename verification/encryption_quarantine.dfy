/** What beginning a bridge does, and how long the node then stays dark: the quarantine of a
    generation that was admitted but must not be used. */
module EncryptionQuarantine {
  import opened Results
  import opened EncryptionMaps
  import opened EncryptionGenerations
  import opened EncryptionRuns
  import opened EncryptionSafety
  import opened EncryptionRestarts

  /** The admission extends the bridge in force, or the physical map if there is none, or is
      the one already bridged. */
  predicate Bridgeable(w: World, a: Admitted) {
    && w.pc == Idle && VerifiedAdmission(a) && w.mem.active.Some?
    && (w.mem.pending.Some? ==> w.mem.pending.value == a.transaction)
    && var physical := w.mem.active.value.desired;
    if w.mem.bridge.None? then a.transaction.prior == Some(physical)
    else Connects(w.mem.bridge.value, physical) && (w.mem.bridge.value.admitted == a || a.transaction.prior == Some(w.mem.bridge.value.Logical()))
  }

  /** Every transaction a bridge skips, in order. */
  function Skipped(b: Bridge): seq<Transaction> { b.ancestry + [b.admitted.transaction] }

  /** The bridge then in force: what was skipped so far, and the admission. */
  predicate Records(w: World, a: Admitted, b: Bridge) {
    && b.schema == BRIDGE_SCHEMA && b.admitted == a && w.mem.active.Some? && Connects(b, w.mem.active.value.desired)
    && (if w.mem.bridge.Some? && w.mem.bridge.value.admitted == a then b == w.mem.bridge.value
        else b.ancestry == (if w.mem.bridge.None? then [] else Skipped(w.mem.bridge.value)))
  }

  /** A bridge is begun exactly when it can be; otherwise nothing happens. */
  lemma {:induction false} BridgeExactly(w: World, a: Admitted)
    ensures w.pc == Idle ==> (Next(w, Event.Bridge(a, Done)).pc == Quarantining <==> Bridgeable(w, a))
    ensures !Bridgeable(w, a) ==> forall io :: Next(w, Event.Bridge(a, io)) == w
    ensures Bridgeable(w, a) ==>
      var n := Next(w, Event.Bridge(a, Done));
      && n.mem.bridge.Some? && Records(w, a, n.mem.bridge.value)
      && n == w.(mem := w.mem.(bridge := n.mem.bridge), files := w.files.(bridge := n.files.bridge), pc := Quarantining)
      && (n.files.bridge == n.mem.bridge || (n.mem == w.mem && n.files == w.files))
  {
    hide Verified, Connects, Exact;
    if w.pc == Idle && VerifiedAdmission(a) && w.mem.active.Some? {
      var physical := w.mem.active.value.desired;
      FirstExactly(physical, a);
      if w.mem.bridge.Some? {
        AdvanceExactly(w.mem.bridge.value, physical, a);
        if Connects(w.mem.bridge.value, physical) { SchemaOf(w.mem.bridge.value, physical); }
      }
    }
  }

  lemma {:induction false} SchemaOf(b: Bridge, physical: Published)
    requires Connects(b, physical)
    ensures b.schema == BRIDGE_SCHEMA
  {
  }

  lemma {:induction false} FirstExactly(physical: Published, a: Admitted)
    ensures FirstBridge(physical, a).Some? <==> VerifiedAdmission(a) && a.transaction.prior == Some(physical)
    ensures FirstBridge(physical, a).Some? ==> FirstBridge(physical, a).value == Bridge.Bridge(BRIDGE_SCHEMA, [], a) && Connects(FirstBridge(physical, a).value, physical)
  {
    hide VerifiedAdmission;
  }

  lemma {:induction false} AdvanceExactly(b: Bridge, physical: Published, a: Admitted)
    ensures AdvancedBridge(b, physical, a).Some? <==> Connects(b, physical) && VerifiedAdmission(a) && a.transaction.prior == Some(b.Logical())
    ensures AdvancedBridge(b, physical, a).Some? ==>
      var n := AdvancedBridge(b, physical, a).value;
      n == Bridge.Bridge(b.schema, Skipped(b), a) && Connects(n, physical)
  {
    hide Verified, Connects;
    if Connects(b, physical) && VerifiedAdmission(a) && a.transaction.prior == Some(b.Logical()) { AdvanceConnects(b, physical, a); }
  }

  /** The call with every effect working, each connection removed. */
  function BridgeEvents(w: World, a: Admitted): seq<Event> {
    [Event.Bridge(a, Done), Step(Done), Purge(w.kernel.connections), Step(Done)] + [Step(Done)]
  }

  /** Where a call with working effects ends: no generation selected, no connection left, the
      bridge recorded, local revalidation demanded and no transaction in memory. The pending
      file goes with the transaction memory knew, and only then. */
  lemma {:induction false} BridgeQuarantines(w: World, a: Admitted)
    requires Bridgeable(w, a)
    ensures var n := Run(w, BridgeEvents(w, a));
      && n.pc == Idle && n.kernel == w.kernel.(config := None, connections := {})
      && n.mem.bridge.Some? && Records(w, a, n.mem.bridge.value) && n.mem.pending.None? && n.mem.revalidate && n.mem.active == w.mem.active
      && n.files.current == w.files.current
      && (n.files.bridge == n.mem.bridge || (n.mem.bridge == w.mem.bridge && n.files.bridge == w.files.bridge))
      && n.files.pending == (if w.mem.pending.Some? then None else w.files.pending)
  {
    hide Run, Next, Records;
    RunTwice(w, [Event.Bridge(a, Done), Step(Done), Purge(w.kernel.connections), Step(Done)], [Step(Done)]);
    RunFour(w, Event.Bridge(a, Done), Step(Done), Purge(w.kernel.connections), Step(Done));
    BridgeExactly(w, a);
    var begun := Next(w, Event.Bridge(a, Done));
    Purges(begun, w.kernel.connections);
    var dropping := Next(Next(Next(begun, Step(Done)), Purge(w.kernel.connections)), Step(Done));
    RunOne(dropping, Step(Done));
    Drops(dropping);
  }

  lemma {:induction false} Purges(w: World, gone: set<nat>)
    requires w.pc == Quarantining && w.kernel.connections <= gone
    ensures Next(Next(Next(w, Step(Done)), Purge(gone)), Step(Done)) == w.(kernel := w.kernel.(config := None, connections := {}), pc := Dropping)
  {
    assert w.kernel.connections - gone == {};
  }

  lemma {:induction false} Drops(w: World)
    requires w.pc == Dropping
    ensures Next(w, Step(Done)) == w.(pc := Idle, mem := w.mem.(pending := None, revalidate := true),
                                      files := if w.mem.pending.Some? then w.files.(pending := None) else w.files)
  {
  }

  /** A pending file can survive the call: its write took effect without being reported, so
      memory knew of no transaction to drop. */
  lemma {:induction false} PendingFileCanSurvive(a: Admitted, b: Admitted)
    requires Successive(a, b)
    ensures var w := Run(FirstBoot, PublishFirst(a) + [Apply(b, FailedAfter)]);
      && Bridgeable(w, b) && w.mem.pending.None?
      && Run(w, BridgeEvents(w, b)).files.pending == Some(b.transaction)
  {
    hide Run, Next, Overlay, Verified, ConfigOf, Records;
    FirstIsPublished(a, [Apply(b, FailedAfter)]);
    RunOne(AfterFirst(a), Apply(b, FailedAfter));
    UnreportedOffer(a, b);
    BridgeQuarantines(Run(FirstBoot, PublishFirst(a) + [Apply(b, FailedAfter)]), b);
  }

  lemma {:induction false} UnreportedOffer(a: Admitted, b: Admitted)
    requires Successive(a, b)
    ensures var w := AfterFirst(a); Next(w, Apply(b, FailedAfter)) == w.(files := w.files.(pending := Some(b.transaction)))
  {
    hide Overlay, Verified, ConfigOf, Exact;
  }

  /** One bridge goes on from another: it skips the same transactions first. */
  predicate Extends(later: Bridge, earlier: Bridge) { Skipped(earlier) <= Skipped(later) }

  /** A transaction in hand extends the bridge memory holds. */
  predicate InHand(w: World) {
    match w.pc
    case Staging(p) => w.mem.bridge.Some? && p.prior == Some(w.mem.bridge.value.Logical())
    case Settled(p, _) => w.mem.bridge.Some? && p.prior == Some(w.mem.bridge.value.Logical())
    case Flipping(p) => w.mem.bridge.Some? && p.prior == Some(w.mem.bridge.value.Logical())
    case _ => true
  }

  /** Dark behind this bridge: no generation is selected, nothing is connected, and file and
      memory hold the bridge or one that goes on from it. */
  predicate Dark(w: World, b: Bridge) {
    && w.kernel.config.None? && w.kernel.connections == {}
    && w.files.bridge.Some? && Extends(w.files.bridge.value, b)
    && (w.pc != Down ==> w.mem.bridge.Some? && Extends(w.mem.bridge.value, b))
    && InHand(w)
  }

  /** The step that ends the dark: it selects the pending transaction, which extends a bridge
      that goes on from this one. */
  predicate Flips(w: World, e: Event, b: Bridge) {
    && e.Step? && w.pc.Flipping? && w.files.pending == Some(w.pc.p)
    && w.mem.bridge.Some? && Extends(w.mem.bridge.value, b) && w.pc.p.prior == Some(w.mem.bridge.value.Logical())
  }

  lemma {:induction false} LongerExtends(later: Bridge, earlier: Bridge, a: Admitted)
    requires Extends(later, earlier)
    ensures Extends(Bridge.Bridge(later.schema, Skipped(later), a), earlier)
  {
  }

  lemma {:induction false} DarkBridge(w: World, a: Admitted, io: Io, b: Bridge)
    requires Dark(w, b)
    ensures Dark(StepBridge(w, a, io), b)
  {
    hide Connects, Verified, Extends, Skipped;
    if w.pc == Idle && w.mem.active.Some? && VerifiedAdmission(a) {
      AdvanceExactly(w.mem.bridge.value, w.mem.active.value.desired, a);
      LongerExtends(w.mem.bridge.value, b, a);
    }
  }

  lemma {:induction false} DarkDecide(w: World, p: Transaction, b: Bridge)
    requires Inv(w) && Dark(w, b) && w.pc == Deciding(p)
    ensures Dark(StepDecide(w, p), b)
  {
    hide Connects, Verified, Extends, TargetImage, Quiescent, ConfigOf, Exact;
    assert p.phase != RolledBack;
  }

  lemma {:induction false} DarkStart(w: World, b: Bridge)
    requires Dark(w, b)
    ensures Dark(Next(w, Start), b)
  {
    hide Connects, Verified, Extends, Quiescent, ConfigOf, Exact;
  }

  lemma {:induction false} DarkStep(w: World, io: Io, b: Bridge)
    requires Inv(w) && Dark(w, b)
    ensures Dark(StepOn(w, io), b) || Flips(w, Step(io), b)
  {
    hide Connects, Verified, Extends, Quiescent, ConfigOf, Exact, StepDecide;
    match w.pc
    case Deciding(p) => DarkDecide(w, p, b);
    case _ =>
  }

  /** Every event keeps the node dark, but for the one step that selects a transaction which
      extends the bridge. */
  lemma {:induction false} DarkNext(w: World, e: Event, b: Bridge)
    requires Inv(w) && Dark(w, b)
    ensures Dark(Next(w, e), b) || Flips(w, e, b)
  {
    hide Extends, Connects, Verified, Exact, ConfigOf, StepOn, StepBridge, Started, Inv, Within;
    match e
    case Start => DarkStart(w, b);
    case Bridge(a, io) => DarkBridge(w, a, io, b);
    case Step(io) => DarkStep(w, io, b);
    case Apply(_, _) =>
    case _ =>
  }

  /** How long a run stays dark. */
  ghost predicate StaysDark(w: World, events: seq<Event>, b: Bridge)
    decreases |events|
  {
    && Dark(w, b)
    && (events != [] ==> Flips(w, events[0], b) || StaysDark(Next(w, events[0]), events[1..], b))
  }

  lemma {:induction false} DarkRun(w: World, events: seq<Event>, b: Bridge)
    requires Inv(w) && Dark(w, b)
    ensures StaysDark(w, events, b)
    decreases |events|
  {
    hide Inv, Dark, Next, Flips;
    if events != [] {
      DarkNext(w, events[0], b);
      NextSafe(w, events[0]);
      if !Flips(w, events[0], b) { DarkRun(Next(w, events[0]), events[1..], b); }
    }
  }

  /** The bridge file is never behind the bridge memory holds. */
  predicate FileFollows(w: World) {
    w.mem.bridge.Some? ==> w.files.bridge.Some? && Extends(w.files.bridge.value, w.mem.bridge.value)
  }

  lemma {:induction false} NextFollows(w: World, e: Event)
    requires FileFollows(w) && Inv(w)
    ensures FileFollows(Next(w, e))
  {
    hide Connects, Verified, Exact, ConfigOf, Within, Observed, TargetImage, Extends, StepBridge, FilesValid, Matches, MemoryValid;
    SelfExtends();
    if e.Bridge? { BridgeFollows(w, e.skipped, e.persist); }
  }

  lemma {:induction false} SelfExtends()
    ensures forall b :: Extends(b, b)
  {
  }

  lemma {:induction false} BridgeFollows(w: World, a: Admitted, io: Io)
    requires FileFollows(w)
    ensures FileFollows(StepBridge(w, a, io))
  {
    hide Connects, Verified, Extends, Skipped;
    SelfExtends();
    if w.mem.active.Some? && w.mem.bridge.Some? {
      AdvanceExactly(w.mem.bridge.value, w.mem.active.value.desired, a);
      LongerExtends(w.mem.bridge.value, w.mem.bridge.value, a);
    }
  }

  lemma {:induction false} RunFollows(w: World, events: seq<Event>)
    requires FileFollows(w) && Inv(w)
    ensures FileFollows(Run(w, events))
    decreases |events|
  {
    hide FileFollows, Next, Inv;
    if events != [] {
      NextFollows(w, events[0]);
      NextSafe(w, events[0]);
      RunFollows(Next(w, events[0]), events[1..]);
    }
  }

  /** After the call, through crashes, restarts, further bridges and failed publications, the
      config stays zero and nothing connects until a transaction that extends the bridge, or
      one that goes on from it, is selected. */
  lemma {:induction false} BridgeStaysDark(before: seq<Event>, a: Admitted, after: seq<Event>)
    requires Bridgeable(Run(FirstBoot, before), a)
    ensures var w := Run(FirstBoot, before); var n := Run(w, BridgeEvents(w, a));
      n.mem.bridge.Some? && n.mem.bridge.value.admitted == a && StaysDark(n, after, n.mem.bridge.value)
  {
    hide Run, Next, Inv, Bridgeable, StaysDark, Connects;
    var w := Run(FirstBoot, before);
    BridgeQuarantines(w, a);
    ReachableSafe(before);
    RunSafe(w, BridgeEvents(w, a));
    ReachableSafe([]);
    RunNothing(FirstBoot);
    RunFollows(FirstBoot, before);
    RunFollows(w, BridgeEvents(w, a));
    SelfExtends();
    var n := Run(w, BridgeEvents(w, a));
    DarkRun(n, after, n.mem.bridge.value);
  }

  /** Where a reported publication ends. */
  function Reported(w: World, t: Transaction, tables: Tables): World {
    var current := Some(t.(phase := Committed));
    w.(files := Files(current, None, None), mem := Memory(current, None, None, false),
       kernel := w.kernel.(tables := tables, config := Some(ConfigOf(t.desired))), pc := Idle)
  }

  /** A publication with working effects ends with the generation current on disk and in
      memory, selected, its bank exact, and the agent ready for the next one. */
  lemma {:induction false} PublishCompletes(w: World, a: Admitted, tables: Tables)
    requires Resting(w) && w.files.bridge.None? && Publishable(w, a, tables)
    ensures var n := Run(w, PublishEvents(a, tables) + [Step(Done)]);
      n == Reported(w, a.transaction, tables) && Resting(n) && Names(n.kernel, a.transaction.desired)
  {
    hide Run, Within, ConfigOf, Verified, PublishEvents;
    PublishReachesRename(w, a, tables);
    RunTwice(w, PublishEvents(a, tables), [Step(Done)]);
    RunOne(AtRename(w, a.transaction, tables), Step(Done));
  }

  /** Behind a bridge: memory and files agree on it, nothing is pending, nothing is selected. */
  predicate Waiting(w: World) {
    && w.pc == Idle && w.files.pending.None? && w.mem.pending.None? && w.kernel.config.None?
    && w.mem.active == w.files.current && w.mem.active.Some?
    && w.mem.bridge == w.files.bridge && w.mem.bridge.Some? && Connects(w.mem.bridge.value, w.mem.active.value.desired)
  }

  /** A resting agent that begins a bridge waits behind it. */
  lemma {:induction false} QuarantineWaits(w: World, a: Admitted)
    requires Resting(w) && Bridgeable(w, a)
    ensures var n := Run(w, BridgeEvents(w, a)); Waiting(n) && n.mem.bridge.value.Logical() == a.transaction.desired
  {
    hide Run, Connects, BridgeEvents, Names;
    BridgeQuarantines(w, a);
    BridgeExactly(w, a);
  }

  /** A generation that extends the bridge, with the tables its staging leaves. */
  ghost predicate Successor(w: World, a: Admitted, tables: Tables)
    requires w.mem.bridge.Some?
  {
    && VerifiedAdmission(a) && a.transaction.prior == Some(w.mem.bridge.value.Logical())
    && Within(w.kernel.tables, tables, a.transaction.desired.bank) && Exact(tables, a.transaction.desired)
  }

  lemma {:induction false} SuccessorSettles(w: World, a: Admitted, tables: Tables)
    requires Waiting(w) && Successor(w, a, tables)
    ensures Next(Next(Next(Next(w, Apply(a, Done)), Step(Done)), Write(tables)), Step(Done)) == AtSettled(w, a.transaction, tables)
  {
    hide Exact, Within, TargetImage, Connects, ConfigOf;
    var t := a.transaction;
    var deciding := w.(files := w.files.(pending := Some(t)), pc := Deciding(t));
    assert Next(w, Apply(a, Done)) == deciding;
    assert Observed(deciding, t) == Ok(t.prior);
    assert Next(deciding, Step(Done)) == deciding.(pc := Staging(t));
  }

  /** The way out: a successor of the bridge, published with working effects, is selected and
      current, and the bridge is gone from memory and disk. */
  lemma {:induction false} SuccessorEndsQuarantine(w: World, a: Admitted, tables: Tables)
    requires Waiting(w) && Successor(w, a, tables)
    ensures var n := Run(w, PublishEvents(a, tables) + [Step(Done), Step(Done)]);
      n == Reported(w, a.transaction, tables) && Resting(n)
  {
    hide Run, Next, Within, ConfigOf, Verified, Connects;
    var settled, renaming := AtSettled(w, a.transaction, tables), AtRename(w, a.transaction, tables);
    RunTwice(w, PublishEvents(a, tables), [Step(Done), Step(Done)]);
    RunTwice(w, [Apply(a, Done), Step(Done), Write(tables), Step(Done)], [Step(Done), Step(Done), Step(Done)]);
    RunFour(w, Apply(a, Done), Step(Done), Write(tables), Step(Done));
    RunThree(settled, Step(Done), Step(Done), Step(Done));
    SuccessorSettles(w, a, tables);
    SettledReachesRename(w, a.transaction, tables);
    assert [Step(Done), Step(Done)] == [Step(Done)] + [Step(Done)];
    RunTwice(renaming, [Step(Done)], [Step(Done)]);
    RunOne(renaming, Step(Done));
    RunOne(Next(renaming, Step(Done)), Step(Done));
    Finishes(w, a.transaction, tables);
  }

  lemma {:induction false} Finishes(w: World, t: Transaction, tables: Tables)
    requires w.mem.bridge.Some?
    ensures Next(Next(AtRename(w, t, tables), Step(Done)), Step(Done)) == Reported(w, t, tables)
  {
    hide ConfigOf;
  }
}
