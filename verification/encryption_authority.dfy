/** When the agent counts a generation as active, and what the kernel then shows. */
module EncryptionAuthority {
  import opened Results
  import opened EncryptionMaps
  import opened EncryptionGenerations
  import opened EncryptionRuns
  import opened EncryptionSafety
  import opened EncryptionRestarts

  /** What other tasks ask between two calls: a generation is held and needs no revalidation. */
  predicate HasActive(w: World) { w.pc == Idle && w.mem.active.Some? && !w.mem.revalidate }

  /** The generation memory holds is selected, or a quarantine zeroed the config behind a bridge. */
  predicate Shown(w: World) {
    w.mem.active.Some? ==> Names(w.kernel, w.mem.active.value.desired) || (w.kernel.config.None? && w.mem.bridge.Some?)
  }

  /** Without a demand for revalidation the kernel shows what memory holds, but between the
      flip to the next generation and its report. */
  predicate Claims(w: World) {
    && (!w.mem.revalidate && !w.pc.Committing? && !w.pc.Renaming? ==> Shown(w))
    && (w.pc.Quarantining? || w.pc.Purging? || w.pc.Dropping? ==> w.mem.bridge.Some?)
  }

  lemma {:induction false} StartClaims(w: World)
    requires Claims(w)
    ensures Claims(Next(w, Start))
  {
    hide Verified, Connects, Exact, ConfigOf, Quiescent;
  }

  lemma {:induction false} BridgeClaims(w: World, a: Admitted, io: Io)
    requires Claims(w)
    ensures Claims(StepBridge(w, a, io))
  {
    hide Verified, Connects, Exact, ConfigOf, FirstBridge, AdvancedBridge;
  }

  lemma {:induction false} WriteClaims(w: World, tables: Tables)
    requires Inv(w) && Claims(w) && w.pc.Staging? && Within(w.kernel.tables, tables, w.pc.p.desired.bank)
    ensures Claims(Next(w, Write(tables)))
  {
    if w.mem.active.Some? && w.kernel.config.Some? && w.kernel.config.value.bank == w.mem.active.value.desired.bank {
      WithinKeepsOtherBanks(w.kernel.tables, tables, w.pc.p.desired.bank, w.mem.active.value.desired.bank);
    }
  }

  lemma {:induction false} DecideClaims(w: World, p: Transaction)
    requires Inv(w) && Claims(w) && w.pc == Deciding(p)
    ensures Claims(StepDecide(w, p))
  {
    hide Verified, Connects, Observed, TargetImage, Exact, ConfigOf, Quiescent;
    assert p.phase != RolledBack;
  }

  lemma {:induction false} StepClaims(w: World, io: Io)
    requires Inv(w) && Claims(w)
    ensures Claims(StepOn(w, io))
  {
    hide Verified, Connects, Exact, ConfigOf, Quiescent, StepDecide;
    match w.pc
    case Deciding(p) => DecideClaims(w, p);
    case _ =>
  }

  lemma {:induction false} NextClaims(w: World, e: Event)
    requires Inv(w) && Claims(w)
    ensures Claims(Next(w, e))
  {
    hide Verified, Connects, Exact, ConfigOf, StepOn, StepBridge, Started, Inv;
    match e
    case Start => StartClaims(w);
    case Bridge(a, io) => BridgeClaims(w, a, io);
    case Write(tables) => if w.pc.Staging? && Within(w.kernel.tables, tables, w.pc.p.desired.bank) { WriteClaims(w, tables); }
    case Step(io) => StepClaims(w, io);
    case _ =>
  }

  lemma {:induction false} RunClaims(w: World, events: seq<Event>)
    requires Inv(w) && Claims(w)
    ensures Claims(Run(w, events))
    decreases |events|
  {
    hide Inv, Claims, Next;
    if events != [] {
      NextClaims(w, events[0]);
      NextSafe(w, events[0]);
      RunClaims(Next(w, events[0]), events[1..]);
    }
  }

  /** In every reachable state that has an active generation, the config selects exactly that
      generation's bank unless the config is zero, and it is zero only behind a bridge. */
  lemma {:induction false} ActiveIsSelected(events: seq<Event>)
    ensures var w := Run(FirstBoot, events);
      HasActive(w) ==> (Names(w.kernel, w.mem.active.value.desired) <==> w.kernel.config.Some?) && (w.kernel.config.None? ==> w.mem.bridge.Some?)
  {
    hide Run, Inv;
    ReachableSafe([]);
    RunNothing(FirstBoot);
    RunClaims(FirstBoot, events);
  }

  /** One generation published, one connection open, and a bridge whose purge is refused: the
      agent still counts the generation as active although nothing is selected. */
  lemma {:induction false} ActiveCanBeZeroed(a: Admitted, b: Admitted, connection: nat)
    requires Successive(a, b)
    ensures var w := Run(FirstBoot, PublishFirst(a) + [Flow(connection), Event.Bridge(b, Done), Step(Done), Step(Done)]);
      HasActive(w) && w.mem.active.value.desired == a.transaction.desired && w.kernel.config.None? && connection in w.kernel.connections
  {
    hide Run, Overlay, Verified, ConfigOf, AdvancedBridge;
    FirstIsPublished(a, [Flow(connection), Event.Bridge(b, Done), Step(Done), Step(Done)]);
    RunFour(AfterFirst(a), Flow(connection), Event.Bridge(b, Done), Step(Done), Step(Done));
  }

  /** A restart of a resting agent counts nothing as active; its own generation offered again
      makes it active, and any other offer does not. */
  lemma {:induction false} RestartRevalidates(w: World, a: Admitted, io: Io)
    requires Resting(w) && w.files.current.Some? && w.files.bridge.None?
    requires Inv(w)
    ensures var started := Next(Next(w, Crash), Start);
      && started == w.(mem := Memory(w.files.current, None, None, true)) && !HasActive(started)
      && (HasActive(Next(started, Apply(a, io))) <==> VerifiedAdmission(a) && a.transaction.desired == w.files.current.value.desired)
      && (HasActive(Next(started, Apply(a, io))) ==> Next(started, Apply(a, io)) == w.(mem := Memory(w.files.current, None, None, false)))
  {
    hide Exact, Connects, ConfigOf, Quiescent;
    if VerifiedAdmission(a) { PriorIsNotDesired(a.transaction); }
  }
}
