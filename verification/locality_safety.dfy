/** What the fence guarantees in every run. */
module LocalitySafety {
  import opened Results
  import opened Attachments
  import opened JournalModel
  import opened Locality

  /** The record is the journal's, Ready and nonce-bound, in memory and on disk. */
  predicate Holds(agent: Runs.World, r: Record) {
    && r.phase == Ready && r.token.Some?
    && Lookup(agent.journal.table, r.spec.key) == Some(r)
    && Lookup(agent.disk.table, r.spec.key) == Some(r)
  }

  /** What a packet program of this endpoint finds in the gate. */
  predicate Live(gate: Gate, e: Endpoint) {
    e.record.token.Some? && e.record.token.value in gate.live && gate.live[e.record.token.value] == e.serial
  }

  ghost predicate Holder(agent: Runs.World, nonce: Token, key: Key) {
    key in agent.journal.table && agent.journal.table[key].token == Some(nonce)
    && agent.journal.table[key].spec.key == key && Holds(agent, agent.journal.table[key])
  }

  ghost predicate GateSound(agent: Runs.World, gate: Gate) {
    forall t :: t in gate.live ==> 0 < gate.live[t] <= gate.lastSerial && exists k :: Holder(agent, t, k)
  }

  ghost predicate BankSound(agent: Runs.World, gate: Gate, bank: Bank) {
    && bank.gate < agent.nextId
    && (bank.gate == gate.id ==>
          forall e :: e in bank.endpoints ==> e.serial <= gate.lastSerial && (Live(gate, e) ==> Holds(agent, e.record)))
  }

  /** A live gate is the journal's hook, or the journal refuses to serve until it has one. */
  ghost predicate Guarded(agent: Runs.World, gate: Gate) {
    && gate.id < agent.nextId
    && (gate.live != map[] ==>
          agent.disk.required && agent.journal.required && (agent.journal.hook.Some? ==> agent.journal.hook == Some(gate.id)))
  }

  /** A cut some earlier point of this run took. */
  predicate Taken(agent: Runs.World, cut: Cut) {
    cut.instance < agent.nextId && (agent.journal.instance == Some(cut.instance) ==> cut.revision <= agent.journal.revision)
  }

  /** A sealed bank whose cut is still current is fully live. */
  ghost predicate Whole(agent: Runs.World, gate: Gate, cut: OriginalCut, bank: Bank) {
    && Taken(agent, cut.journal)
    && (agent.open && IsCurrent(agent.journal, cut.journal) && bank.gate == gate.id ==>
          forall e :: e in bank.endpoints ==> Live(gate, e))
  }

  ghost predicate BanksSound(w: World) {
    && (w.published.Some? ==> BankSound(w.agent, w.gate, w.published.value))
    && (w.stage.Sealing? ==> BankSound(w.agent, w.gate, w.stage.bank) && Whole(w.agent, w.gate, w.stage.cut, w.stage.bank))
    && (w.active.Some? ==> BankSound(w.agent, w.gate, w.active.value.bank) && Whole(w.agent, w.gate, w.active.value.cut, w.active.value.bank))
    && (w.stage.Observing? ==> Taken(w.agent, w.stage.cut.journal))
    && (w.selection.Some? ==> Taken(w.agent, w.selection.value.cut))
  }

  /** The registered gate is the hook of a journal that durably demands one. */
  ghost predicate Enrolled(w: World) {
    w.registered ==> w.agent.open && w.agent.journal.required && w.agent.disk.required && w.agent.journal.hook == Some(w.gate.id)
  }

  /** The selected bank belongs to the present gate; a claimed node without a hook has none. */
  predicate SelectionSound(w: World) {
    && (w.published.Some? ==> w.published.value.gate == w.gate.id)
    && (w.agent.open ==> w.claimed)
    && (w.claimed && (!w.agent.open || w.agent.journal.hook.None?) ==> w.published.None?)
    && (!w.agent.open ==> w.stage == Idle && w.active.None?)
  }

  ghost predicate Inv(site: Site, w: World) {
    && Runs.Inv(site, w.agent)
    && SelectionSound(w)
    && Guarded(w.agent, w.gate)
    && GateSound(w.agent, w.gate)
    && BanksSound(w)
    && Enrolled(w)
  }

  /** What a step may do to what the invariant reads: gate entries only disappear, and
      a record whose nonce stays live stays what it was, in memory and on disk. */
  ghost predicate Shrinks(before: Runs.World, gate: Gate, after: Runs.World, later: Gate) {
    && later == gate.(live := later.live) && later.live.Keys <= gate.live.Keys
    && (forall t :: t in later.live ==> later.live[t] == gate.live[t])
    && before.nextId <= after.nextId
    && (forall r: Record :: Holds(before, r) && r.token.value in later.live ==> Holds(after, r))
  }

  lemma {:induction false} ShrinkingKeepsGate(before: Runs.World, gate: Gate, after: Runs.World, later: Gate)
    requires Shrinks(before, gate, after, later) && GateSound(before, gate)
    ensures GateSound(after, later)
  {
    forall t | t in later.live ensures 0 < later.live[t] <= later.lastSerial && exists k :: Holder(after, t, k) {
      var k :| Holder(before, t, k);
      assert Holds(after, before.journal.table[k]);
      assert Holder(after, t, k);
    }
  }

  lemma {:induction false} ShrinkingKeepsBank(before: Runs.World, gate: Gate, after: Runs.World, later: Gate, bank: Bank)
    requires Shrinks(before, gate, after, later) && BankSound(before, gate, bank)
    ensures BankSound(after, later, bank)
  {
    if bank.gate == later.id {
      forall e | e in bank.endpoints ensures e.serial <= later.lastSerial && (Live(later, e) ==> Holds(after, e.record)) {
        if Live(later, e) { assert Live(gate, e); }
      }
    }
  }

  /** A journal transaction never changes a record whose nonce stays live: it hands the
      nonce of every Ready record it touches to the hook before the file changes. */
  lemma {:induction false} TransactShrinks(site: Site, w: World, schema: nat, op: Operation, env: Env, partial: bool)
    requires ValidProvider(site.provider) && Runs.Inv(site, w.agent) && Guarded(w.agent, w.gate) && w.agent.open
    ensures var n := StepTransact(site, w, schema, op, env, partial);
      Shrinks(w.agent, w.gate, n.agent, n.gate)
  {
    hide Apply, Runs.PlannedMove, ValidTable, LegalMove;
    var at := env.(newId := w.agent.nextId);
    Runs.ApplyCases(site, w.agent.journal, w.agent.disk, schema, op, at);
    var n := StepTransact(site, w, schema, op, env, partial);
    forall r: Record | Holds(w.agent, r) && r.token.value in n.gate.live ensures Holds(n.agent, r) {
      TransactKeepsRecord(site, w, schema, op, env, partial, r);
    }
  }

  lemma {:induction false} TransactKeepsRecord(site: Site, w: World, schema: nat, op: Operation, env: Env, partial: bool, r: Record)
    requires ValidProvider(site.provider) && Runs.Inv(site, w.agent) && Guarded(w.agent, w.gate) && w.agent.open
    requires Holds(w.agent, r) && r.token.value in StepTransact(site, w, schema, op, env, partial).gate.live
    ensures Holds(StepTransact(site, w, schema, op, env, partial).agent, r)
  {
    hide Apply, ValidTable, LegalMove, OperationEffect, LegacyBlocked;
    var at := env.(newId := w.agent.nextId);
    Runs.ApplyCases(site, w.agent.journal, w.agent.disk, schema, op, at);
    match Runs.PlannedMove(site, w.agent.journal, schema, op, at.nonce)
    case Still =>
    case Move(key, next) =>
      Runs.StoreRestores(w.agent.journal.table, key, next);
      assert w.agent.journal.Serving();
  }

  lemma {:induction false} TransactKeepsWhole(site: Site, w: World, schema: nat, op: Operation, env: Env, partial: bool, cut: OriginalCut, bank: Bank)
    requires ValidProvider(site.provider) && Runs.Inv(site, w.agent) && w.agent.open && Whole(w.agent, w.gate, cut, bank)
    ensures var n := StepTransact(site, w, schema, op, env, partial); Whole(n.agent, n.gate, cut, bank)
  {
    hide Apply, Runs.PlannedMove, ValidTable, LegalMove;
    Runs.ApplyCases(site, w.agent.journal, w.agent.disk, schema, op, env.(newId := w.agent.nextId));
  }

  /** Journal events leave past cuts past. */
  lemma {:induction false} TakenStays(site: Site, agent: Runs.World, e: Runs.Event, cut: Cut)
    requires ValidProvider(site.provider) && Runs.Inv(site, agent) && Taken(agent, cut)
    ensures Taken(Runs.Next(site, agent, e), cut)
  {
    hide Apply, Runs.PlannedMove, ValidTable, LegalMove, Runs.JournalDocument.Encode, Runs.JournalDocument.Load;
    match e
    case Transact(schema, op, env) =>
      if agent.open { Runs.ApplyCases(site, agent.journal, agent.disk, schema, op, env.(newId := agent.nextId)); }
    case _ =>
  }

  lemma {:induction false} TransactSafe(site: Site, w: World, schema: nat, op: Operation, env: Env, partial: bool)
    requires ValidProvider(site.provider) && Inv(site, w) && w.agent.open
    ensures Inv(site, StepTransact(site, w, schema, op, env, partial))
  {
    hide Apply, Runs.Inv, GateSound, BankSound, Whole, Shrinks, Taken, Runs.Next, StepTransact;
    var n := StepTransact(site, w, schema, op, env, partial);
    var e := Runs.Transact(schema, op, env);
    StepTransactFrame(site, w, schema, op, env, partial);
    Runs.NextKeepsInv(site, w.agent, e);
    TransactShrinks(site, w, schema, op, env, partial);
    ShrinkingKeepsGate(w.agent, w.gate, n.agent, n.gate);
    if w.published.Some? { ShrinkingKeepsBank(w.agent, w.gate, n.agent, n.gate, w.published.value); }
    if w.stage.Sealing? {
      ShrinkingKeepsBank(w.agent, w.gate, n.agent, n.gate, w.stage.bank);
      TransactKeepsWhole(site, w, schema, op, env, partial, w.stage.cut, w.stage.bank);
    }
    if w.active.Some? {
      ShrinkingKeepsBank(w.agent, w.gate, n.agent, n.gate, w.active.value.bank);
      TransactKeepsWhole(site, w, schema, op, env, partial, w.active.value.cut, w.active.value.bank);
    }
    if w.stage.Observing? { TakenStays(site, w.agent, e, w.stage.cut.journal); }
    if w.selection.Some? { TakenStays(site, w.agent, e, w.selection.value.cut); }
  }

  lemma {:induction false} StepTransactFrame(site: Site, w: World, schema: nat, op: Operation, env: Env, partial: bool)
    requires ValidProvider(site.provider) && Inv(site, w) && w.agent.open
    ensures var n := StepTransact(site, w, schema, op, env, partial);
      && n == w.(agent := n.agent, gate := n.gate)
      && n.agent == Runs.Next(site, w.agent, Runs.Transact(schema, op, env))
      && n.agent.open && n.agent.journal.hook == w.agent.journal.hook && n.agent.journal.required == w.agent.journal.required
      && n.agent.nextId == w.agent.nextId + 1 && n.gate.id == w.gate.id
      && Guarded(n.agent, n.gate) && Enrolled(n)
  {
    hide Apply, Runs.PlannedMove, ValidTable, LegalMove, GateSound, BanksSound;
    Runs.ApplyCases(site, w.agent.journal, w.agent.disk, schema, op, env.(newId := w.agent.nextId));
    Runs.NextKeepsInv(site, w.agent, Runs.Transact(schema, op, env));
  }

  /** Issuing only adds entries, each under a serial never used before. */
  ghost predicate Grows(gate: Gate, later: Gate, records: seq<Record>) {
    && later.id == gate.id && later.lastSerial >= gate.lastSerial
    && (forall t :: t in gate.live ==> t in later.live && later.live[t] == gate.live[t])
    && (forall t :: t in later.live && t !in gate.live ==>
          gate.lastSerial < later.live[t] <= later.lastSerial && exists i :: 0 <= i < |records| && Leasable(records[i], t))
  }

  /** A record that may be leased under this nonce. */
  predicate Leasable(r: Record, nonce: Token) { Selectable(r) && r.token == Some(nonce) }

  lemma {:induction false} IssueGrows(gate: Gate, record: Record, write: LeaseWrite)
    requires Selectable(record)
    ensures var (later, serial) := Issue(gate, record.token.value, write);
      && Grows(gate, later, [record])
      && (serial.Some? ==> serial.value <= later.lastSerial && Live(later, Endpoint(record, serial.value)))
  {
    assert [record][0] == record;
  }

  lemma {:induction false} GrowthJoins(a: Gate, b: Gate, c: Gate, records: seq<Record>)
    requires records != [] && Grows(a, b, [records[0]]) && Grows(b, c, records[1..])
    ensures Grows(a, c, records)
  {
    forall t | t in c.live && t !in a.live
      ensures a.lastSerial < c.live[t] <= c.lastSerial && exists i :: 0 <= i < |records| && Leasable(records[i], t)
    {
      if t in b.live {
        assert Leasable(records[0], t);
      } else {
        var i :| 0 <= i < |records[1..]| && Leasable(records[1..][i], t);
        assert Leasable(records[i + 1], t);
      }
    }
  }

  /** All records leased: one live endpoint per record, in order. */
  ghost predicate Leased(gate: Gate, records: seq<Record>, endpoints: seq<Endpoint>) {
    && |endpoints| == |records|
    && (forall i :: 0 <= i < |records| ==>
          endpoints[i].record == records[i] && Selectable(records[i]) && endpoints[i].serial <= gate.lastSerial && Live(gate, endpoints[i]))
  }

  lemma {:induction false} IssueAllLeases(gate: Gate, records: seq<Record>, good: nat, last: LeaseWrite)
    ensures var (later, endpoints) := IssueAll(gate, records, good, last);
      && Grows(gate, later, records)
      && (endpoints.Some? ==> Leased(later, records, endpoints.value))
    decreases |records|
  {
    hide Issue, Grows, Leased;
    if records == [] {
      NothingLeased(gate);
    } else if !Selectable(records[0]) {
      GrowsNot(gate, records);
    } else {
      var write := if good > 0 then Written else last;
      var (issued, serial) := Issue(gate, records[0].token.value, write);
      IssueGrows(gate, records[0], write);
      if serial.Some? {
        var left := if good > 0 then good - 1 else 0;
        IssueAllLeases(issued, records[1..], left, last);
        var (final, rest) := IssueAll(issued, records[1..], left, last);
        GrowthJoins(gate, issued, final, records);
        if rest.Some? { LeasedCons(issued, final, records, serial.value, rest.value); }
      } else {
        GrowsByFirst(gate, issued, records);
      }
    }
  }

  lemma {:induction false} NothingLeased(gate: Gate)
    ensures Grows(gate, gate, []) && Leased(gate, [], [])
  {
  }

  lemma {:induction false} GrowsNot(gate: Gate, records: seq<Record>)
    ensures Grows(gate, gate, records)
  {
  }

  lemma {:induction false} GrowsByFirst(gate: Gate, later: Gate, records: seq<Record>)
    requires records != [] && Grows(gate, later, [records[0]])
    ensures Grows(gate, later, records)
  {
    forall t | t in later.live && t !in gate.live
      ensures gate.lastSerial < later.live[t] <= later.lastSerial && exists i :: 0 <= i < |records| && Leasable(records[i], t)
    {
      assert Leasable(records[0], t);
    }
  }

  /** The first lease stays live while the others are issued. */
  lemma {:induction false} LeasedCons(issued: Gate, final: Gate, records: seq<Record>, serial: nat, rest: seq<Endpoint>)
    requires records != [] && Grows(issued, final, records[1..]) && Leased(final, records[1..], rest)
    requires Selectable(records[0]) && serial <= issued.lastSerial && Live(issued, Endpoint(records[0], serial))
    ensures Leased(final, records, [Endpoint(records[0], serial)] + rest)
  {
    var all := [Endpoint(records[0], serial)] + rest;
    forall i | 0 <= i < |records| ensures all[i].record == records[i] && Selectable(records[i]) && all[i].serial <= final.lastSerial && Live(final, all[i]) {
      if i > 0 { assert all[i] == rest[i - 1] && records[i] == records[1..][i - 1]; }
    }
  }

  lemma {:induction false} GrowthKeepsGate(agent: Runs.World, gate: Gate, later: Gate, records: seq<Record>)
    requires Grows(gate, later, records) && GateSound(agent, gate)
    requires forall r :: r in records && Selectable(r) ==> Holds(agent, r)
    ensures GateSound(agent, later)
  {
    forall t | t in later.live ensures 0 < later.live[t] <= later.lastSerial && exists k :: Holder(agent, t, k) {
      if t !in gate.live {
        var i :| 0 <= i < |records| && Leasable(records[i], t);
        assert Holds(agent, records[i]);
        assert Holder(agent, t, records[i].spec.key);
      }
    }
  }

  lemma {:induction false} GrowthKeepsBank(agent: Runs.World, gate: Gate, later: Gate, records: seq<Record>, bank: Bank)
    requires Grows(gate, later, records) && BankSound(agent, gate, bank)
    ensures BankSound(agent, later, bank)
    ensures forall cut :: Whole(agent, gate, cut, bank) ==> Whole(agent, later, cut, bank)
  {
    if bank.gate == later.id {
      forall e | e in bank.endpoints ensures e.serial <= later.lastSerial && (Live(later, e) ==> Holds(agent, e.record)) {
        if Live(later, e) { assert Live(gate, e); }
      }
    }
  }

  lemma {:induction false} LeaseSafe(site: Site, w: World, good: nat, last: LeaseWrite)
    requires Inv(site, w)
    ensures Inv(site, StepLease(w, good, last))
  {
    hide IssueAll, Grows, BankSound, GateSound, ValidTable, Runs.Near;
    var n := StepLease(w, good, last);
    if n.gate != w.gate || n.stage.Sealing? {
      if w.stage.Observing? {
        var records := w.stage.records;
        IssueAllLeases(w.gate, records, good, last);
        var (later, endpoints) := IssueAll(w.gate, records, good, last);
        assert n.gate == later && (n.stage.Sealing? ==> endpoints.Some? && n.stage.bank.endpoints == endpoints.value);
        assert forall r :: r in records && Selectable(r) ==> Holds(w.agent, r);
        GrowthKeepsGate(w.agent, w.gate, n.gate, records);
        assert n.gate.id == w.gate.id by { GrowsId(w.gate, n.gate, records); }
        if w.published.Some? { GrowthKeepsBank(w.agent, w.gate, n.gate, records, w.published.value); }
        if w.active.Some? { GrowthKeepsBank(w.agent, w.gate, n.gate, records, w.active.value.bank); }
        if n.stage.Sealing? { NewBankSound(w.agent, n.gate, records, n.stage.bank, n.stage.cut); }
      }
    }
  }

  lemma {:induction false} GrowsId(gate: Gate, later: Gate, records: seq<Record>)
    requires Grows(gate, later, records)
    ensures later.id == gate.id
  {
  }

  lemma {:induction false} NewBankSound(agent: Runs.World, gate: Gate, records: seq<Record>, bank: Bank, cut: OriginalCut)
    requires Leased(gate, records, bank.endpoints) && bank.gate == gate.id < agent.nextId && Taken(agent, cut.journal)
    requires forall r :: r in records && Selectable(r) ==> Holds(agent, r)
    ensures BankSound(agent, gate, bank) && Whole(agent, gate, cut, bank)
  {
    forall e | e in bank.endpoints
      ensures e.serial <= gate.lastSerial && Live(gate, e) && Holds(agent, e.record)
    {
      var i :| 0 <= i < |bank.endpoints| && bank.endpoints[i] == e;
      assert e.record == records[i];
    }
  }

  lemma {:induction false} InstallSafe(site: Site, w: World, persist: PersistOutcome)
    requires ValidProvider(site.provider) && Inv(site, w)
    ensures Inv(site, StepInstall(site, w, persist))
  {
    hide ValidTable, Runs.Near;
    var e := Runs.InstallForReaders(w.agent.nextId, persist);
    Runs.NextKeepsInv(site, w.agent, e);
    var n := StepInstall(site, w, persist);
    if n.gate == w.gate {
      assert n.agent == w.agent.(nextId := w.agent.nextId + 1);
      AgingSafe(w.agent, w.gate, n.agent);
    } else {
      assert n.gate.id == w.agent.nextId && n.gate.live == map[];
    }
    CutsStay(site, w, e);
  }

  /** Only the identity counter moved. */
  lemma {:induction false} AgingSafe(agent: Runs.World, gate: Gate, later: Runs.World)
    requires later == agent.(nextId := agent.nextId + 1)
    ensures Shrinks(agent, gate, later, gate)
    ensures GateSound(agent, gate) ==> GateSound(later, gate)
    ensures forall bank :: BankSound(agent, gate, bank) ==> BankSound(later, gate, bank)
  {
    if GateSound(agent, gate) { ShrinkingKeepsGate(agent, gate, later, gate); }
    forall bank | BankSound(agent, gate, bank) ensures BankSound(later, gate, bank) {
      ShrinkingKeepsBank(agent, gate, later, gate, bank);
    }
  }

  lemma {:induction false} CutsStay(site: Site, w: World, e: Runs.Event)
    requires ValidProvider(site.provider) && Runs.Inv(site, w.agent) && BanksSound(w)
    ensures var later := Runs.Next(site, w.agent, e);
      && (w.stage.Sealing? ==> Taken(later, w.stage.cut.journal))
      && (w.active.Some? ==> Taken(later, w.active.value.cut.journal))
      && (w.stage.Observing? ==> Taken(later, w.stage.cut.journal))
      && (w.selection.Some? ==> Taken(later, w.selection.value.cut))
  {
    hide Runs.Inv, Runs.Next, BankSound, Taken;
    if w.stage.Sealing? { TakenStays(site, w.agent, e, w.stage.cut.journal); }
    if w.active.Some? { TakenStays(site, w.agent, e, w.active.value.cut.journal); }
    if w.stage.Observing? { TakenStays(site, w.agent, e, w.stage.cut.journal); }
    if w.selection.Some? { TakenStays(site, w.agent, e, w.selection.value.cut); }
  }

  lemma {:induction false} CrashSafe(site: Site, w: World)
    requires ValidProvider(site.provider) && Inv(site, w)
    ensures Inv(site, Next(site, w, Crash))
  {
    hide ValidTable, Runs.Near;
    Runs.NextKeepsInv(site, w.agent, Runs.Crash);
    var later := Runs.Next(site, w.agent, Runs.Crash);
    assert Shrinks(w.agent, w.gate, later, w.gate);
    ShrinkingKeepsGate(w.agent, w.gate, later, w.gate);
    if w.published.Some? { ShrinkingKeepsBank(w.agent, w.gate, later, w.gate, w.published.value); }
  }

  /** Withdrawal first, journal second: an opened journal finds no bank selected, holds every
      record whose nonce is still live, and refuses to serve until it has a hook again. */
  lemma {:induction false} BootSafe(site: Site, w: World)
    requires ValidProvider(site.provider) && Inv(site, w)
    ensures Inv(site, Next(site, w, Boot))
    ensures var n := Next(site, w, Boot);
      !w.agent.open && n.agent.open ==> w.claimed && n.published.None? && (n.agent.disk.required ==> !n.agent.journal.Serving())
  {
    hide ValidTable, Runs.Near, Runs.JournalDocument.Load, Runs.JournalDocument.Encode;
    if !w.agent.open && w.claimed {
      Runs.NextKeepsInv(site, w.agent, Runs.Open);
      Runs.LoadsAgain(site, w.agent);
      CutsStay(site, w, Runs.Open);
      var later := Runs.Next(site, w.agent, Runs.Open);
      assert Shrinks(w.agent, w.gate, later, w.gate);
      ShrinkingKeepsGate(w.agent, w.gate, later, w.gate);
    }
  }

  lemma {:induction false} NextSafe(site: Site, w: World, e: Event)
    requires ValidProvider(site.provider) && Inv(site, w)
    ensures Inv(site, Next(site, w, e))
  {
    hide Runs.Inv, Runs.Next, GateSound, BankSound, StepTransact, StepInstall, StepLease, Selected;
    match e
    case Transact(schema, op, env, partial) =>
      if w.agent.open { TransactSafe(site, w, schema, op, env, partial); } else { ClosedTransact(site, w, schema, op, env, partial); }
    case Crash => CrashSafe(site, w);
    case Claim(_) =>
    case Boot => BootSafe(site, w);
    case InstallGate(persist) => InstallSafe(site, w, persist);
    case Replace(_) =>
    case Refresh(_, _) => RefreshedCut(site, w);
    case Check(_) =>
    case Observe =>
    case Drop =>
    case Lease(good, last) => LeaseSafe(site, w, good, last);
    case Publish(_, _) =>
    case Clear(_) =>
  }

  lemma {:induction false} ClosedTransact(site: Site, w: World, schema: nat, op: Operation, env: Env, partial: bool)
    requires ValidProvider(site.provider) && !w.agent.open
    ensures StepTransact(site, w, schema, op, env, partial) == w
  {
  }

  lemma {:induction false} RefreshedCut(site: Site, w: World)
    requires Runs.Inv(site, w.agent)
    ensures TakeCut(w.agent.journal).Some? ==> Taken(w.agent, TakeCut(w.agent.journal).value)
  {
  }

  lemma {:induction false} RunSafe(site: Site, w: World, events: seq<Event>)
    requires ValidProvider(site.provider) && Inv(site, w)
    ensures Inv(site, Run(site, w, events))
    decreases |events|
  {
    if events != [] {
      NextSafe(site, w, events[0]);
      RunSafe(site, Next(site, w, events[0]), events[1..]);
    }
  }

  /** In every run, through crashes, failed writes, failed revocations and failed starts: a
      selected bank compares against the gate the journal revokes from, and whatever it finds
      live there is a Ready record in memory and on disk, unchanged since it was leased; and so
      is every nonce the gate holds. */
  lemma {:induction false} LiveEndpointsAreReady(site: Site, events: seq<Event>)
    requires ValidProvider(site.provider)
    ensures var w := Run(site, FirstBoot, events);
      && (w.published.Some? ==>
            w.published.value.gate == w.gate.id && forall e :: e in w.published.value.endpoints && Live(w.gate, e) ==> Holds(w.agent, e.record))
      && (forall t :: t in w.gate.live ==> exists k :: Holder(w.agent, t, k))
  {
    assert Inv(site, FirstBoot);
    RunSafe(site, FirstBoot, events);
  }

  /** A journal that opened and has no hook yet faces no selected bank, and serves nobody if
      its file demands a hook. */
  lemma {:induction false} UnhookedNodeIsDark(site: Site, events: seq<Event>)
    requires ValidProvider(site.provider)
    ensures var w := Run(site, FirstBoot, events);
      w.agent.open && w.agent.journal.hook.None? ==> w.published.None? && (w.agent.disk.required ==> !w.agent.journal.Serving())
  {
    assert Inv(site, FirstBoot);
    RunSafe(site, FirstBoot, events);
  }

  /** The journal serves and is exactly where this cut was taken. */
  predicate At(j: Journal, cut: Cut) {
    (j.required ==> j.hook.Some?) && j.instance == Some(cut.instance) && j.revision == cut.revision
  }

  /** Nothing moved since the cut was taken: its placement, the selection's and the applied one
      are the same, and the journal is where both cuts were taken. */
  predicate Unmoved(w: World, cut: OriginalCut) {
    && w.agent.open && w.selection.Some?
    && cut.placement == w.selection.value.placement && w.selection.value.placement == w.placement
    && At(w.agent.journal, cut.journal) && At(w.agent.journal, w.selection.value.cut)
  }

  /** A bank is armed only while nothing has moved since its cut: at that moment it was built
      from the current gate, every endpoint is live, and every record is the journal's and the
      disk's. */
  lemma {:induction false} ArmedBankIsWhole(site: Site, events: seq<Event>, first: Withdrawal, arming: Arming)
    requires ValidProvider(site.provider)
    ensures var w := Run(site, FirstBoot, events);
      var n := StepPublish(w, first, arming);
      n.published.Some? && n.published != w.published ==>
        && w.stage.Sealing? && n.published == Some(w.stage.bank) && Unmoved(w, w.stage.cut)
        && n.published.value.gate == n.gate.id
        && forall e :: e in n.published.value.endpoints ==> Live(n.gate, e) && Holds(n.agent, e.record)
  {
    assert Inv(site, FirstBoot);
    RunSafe(site, FirstBoot, events);
  }

  /** An endpoint of this or an earlier gate that its gate no longer holds. */
  predicate Disarmed(w: World, gate: nat, e: Endpoint) {
    && gate <= w.gate.id < w.agent.nextId
    && (gate == w.gate.id ==> e.serial <= w.gate.lastSerial && !Live(w.gate, e))
  }

  lemma {:induction false} DisarmedStep(site: Site, w: World, event: Event, gate: nat, e: Endpoint)
    requires ValidProvider(site.provider) && Inv(site, w) && Disarmed(w, gate, e)
    ensures Disarmed(Next(site, w, event), gate, e)
  {
    hide Runs.Inv, GateSound, BankSound, Apply, IssueAll, Grows, Shrinks, Selected, Runs.JournalDocument.Load, Runs.JournalDocument.Encode;
    NextSafe(site, w, event);
    match event
    case Lease(good, last) =>
      if w.stage.Observing? {
        IssueAllLeases(w.gate, w.stage.records, good, last);
        GrowthKeepsDisarmed(w.gate, IssueAll(w.gate, w.stage.records, good, last).0, w.stage.records, e);
      }
    case _ =>
  }

  lemma {:induction false} GrowthKeepsDisarmed(gate: Gate, later: Gate, records: seq<Record>, e: Endpoint)
    requires Grows(gate, later, records)
    ensures later.id == gate.id
    ensures e.serial <= gate.lastSerial && !Live(gate, e) ==> e.serial <= later.lastSerial && !Live(later, e)
  {
  }

  lemma {:induction false} DisarmedRun(site: Site, w: World, events: seq<Event>, gate: nat, e: Endpoint)
    requires ValidProvider(site.provider) && Inv(site, w) && Disarmed(w, gate, e)
    ensures Disarmed(Run(site, w, events), gate, e)
    decreases |events|
  {
    hide Inv, Next, Disarmed;
    if events != [] {
      DisarmedStep(site, w, events[0], gate, e);
      NextSafe(site, w, events[0]);
      DisarmedRun(site, Next(site, w, events[0]), events[1..], gate, e);
    }
  }

  /** No rearm: once a leased endpoint is not live, nothing that happens later in the run
      makes it live again, even when its nonce is leased anew. */
  lemma {:induction false} DisarmedForever(site: Site, before: seq<Event>, after: seq<Event>, gate: nat, e: Endpoint)
    requires ValidProvider(site.provider) && Disarmed(Run(site, FirstBoot, before), gate, e)
    ensures var n := Run(site, Run(site, FirstBoot, before), after); !(n.gate.id == gate && Live(n.gate, e))
  {
    assert Inv(site, FirstBoot);
    RunSafe(site, FirstBoot, before);
    DisarmedRun(site, Run(site, FirstBoot, before), after, gate, e);
  }
}
