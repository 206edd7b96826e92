/** What one journal transaction can do to memory and disk, and what follows for
    every run of transactions, hook installations, failures, crashes and reopens. */
module JournalRuns {
  import opened Results
  import opened Attachments
  import opened JournalModel
  import opened JournalDocument

  /** The one-record change a transaction plans, before hook and file system answer. */
  datatype Move = Still | Move(key: Key, next: Option<Record>)

  function PlannedMove(site: Site, j: Journal, schema: nat, op: Operation, nonce: Option<Token>): Move
    requires ValidProvider(site.provider)
  {
    if !j.Serving() || schema !in {CURRENT_SCHEMA, UID_SCHEMA, LEGACY_SCHEMA} then Still
    else if schema != CURRENT_SCHEMA && LegacyBlocked(j.table, schema, op) then Still
    else
      var result := OperationEffect(site, j.table, op, schema, nonce);
      if result.Ok? && MutationKey(op).Some?
         && Lookup(result.value.table, MutationKey(op).value) != Lookup(j.table, MutationKey(op).value)
      then Move(MutationKey(op).value, Lookup(result.value.table, MutationKey(op).value))
      else Still
  }

  lemma {:induction false} StoreRestores(table: Table, key: Key, next: Option<Record>)
    ensures Store(Store(table, key, next), key, Lookup(table, key)) == table
    ensures Lookup(Store(table, key, next), key) == next
    ensures forall k :: k != key ==> Lookup(Store(table, key, next), k) == Lookup(table, k)
  {
  }

  lemma {:induction false} PhaseKeepsValid(site: Site, table: Table, key: Key, phase: Phase)
    requires ValidTable(site, table) && key in table
    ensures ValidTable(site, table[key := table[key].(phase := phase)])
  {
    var after := table[key := table[key].(phase := phase)];
    forall k | k in after ensures ValidRecord(site, k, after[k]) {
      assert ValidRecord(site, k, table[k]);
    }
  }

  lemma {:induction false} RemovalKeepsValid(site: Site, table: Table, key: Key)
    requires ValidTable(site, table)
    ensures ValidTable(site, table - {key})
  {
    forall k | k in table - {key} ensures ValidRecord(site, k, (table - {key})[k]) {
      assert ValidRecord(site, k, table[k]);
    }
  }

  /** An effect that leaves the table alone, or moves one key legally and keeps the table valid. */
  ghost predicate IsMove(site: Site, table: Table, key: Key, result: Result<Effect, Error>) {
    result.Ok? && result.value.table != table ==>
      var next := Lookup(result.value.table, key);
      && LegalMove(Lookup(table, key), next)
      && result.value.table == Store(table, key, next)
      && ValidTable(site, result.value.table)
  }

  lemma {:induction false} InsertionKeepsValid(site: Site, table: Table, record: Record)
    requires ValidTable(site, table) && record.spec.key !in table && ValidRecord(site, record.spec.key, record)
    requires forall k :: k in table ==>
      && table[k].lease.ipv4 != record.lease.ipv4 && table[k].lease.ipv6 != record.lease.ipv6
      && table[k].hostInterface != record.hostInterface
      && (record.token.Some? ==> table[k].token != record.token)
    ensures ValidTable(site, table[record.spec.key := record])
  {
    var after := table[record.spec.key := record];
    forall k | k in after ensures ValidRecord(site, k, after[k]) {
      if k != record.spec.key { assert ValidRecord(site, k, table[k]); }
    }
    forall a, b | a in after && b in after && a != b && after[a].token.Some? ensures after[a].token != after[b].token {
    }
  }

  lemma {:induction false} PrepareMove(site: Site, table: Table, spec: Spec, schema: nat, nonce: Option<Token>)
    requires ValidProvider(site.provider) && ValidTable(site, table) && ValidSpec(spec)
    ensures IsMove(site, table, spec.key, PrepareEffect(site, table, spec, schema, nonce))
  {
    hide Allocate;
    hide ValidSpec;
    var result := PrepareEffect(site, table, spec, schema, nonce);
    if result.Ok? && result.value.table != table {
      var record := result.value.table[spec.key];
      assert ValidRecord(site, spec.key, record);
      InsertionKeepsValid(site, table, record);
    }
  }

  lemma {:induction false} PhaseMoves(site: Site, table: Table, key: Key)
    requires ValidTable(site, table)
    ensures IsMove(site, table, key, CommitEffect(table, key))
    ensures IsMove(site, table, key, BeginAbortEffect(table, key))
    ensures IsMove(site, table, key, BeginDeleteEffect(table, key))
  {
    hide ValidTable;
    if key in table {
      PhaseKeepsValid(site, table, key, Ready);
      PhaseKeepsValid(site, table, key, Aborting);
      PhaseKeepsValid(site, table, key, Deleting);
      assert table[key := table[key]] == table;
    }
  }

  lemma {:induction false} CompletionMoves(site: Site, table: Table, key: Key)
    requires ValidTable(site, table)
    ensures IsMove(site, table, key, CompleteEffect(table, key, Aborting))
    ensures IsMove(site, table, key, CompleteEffect(table, key, Deleting))
  {
    hide ValidTable;
    RemovalKeepsValid(site, table, key);
  }

  lemma {:induction false} FailureIsMove(site: Site, table: Table)
    ensures forall key, error: Error :: IsMove(site, table, key, Err(error))
  {
  }

  lemma {:induction false} CheckKeepsTable(table: Table, op: Operation)
    ensures op.Check? && CheckEffect(table, op.spec).Ok? ==> CheckEffect(table, op.spec).value.table == table
  {
  }

  /** An operation changes at most its own key, by a legal move, and keeps the table valid. */
  lemma {:induction false} EffectIsMove(site: Site, table: Table, op: Operation, schema: nat, nonce: Option<Token>)
    requires ValidProvider(site.provider) && ValidTable(site, table)
    ensures var result := OperationEffect(site, table, op, schema, nonce);
      match MutationKey(op)
      case Some(key) => IsMove(site, table, key, result)
      case None => result.Ok? ==> result.value.table == table
  {
    hide ValidTable, IsMove, ValidSpec, ValidKey, PrepareEffect, CommitEffect, BeginAbortEffect, CompleteEffect, BeginDeleteEffect, CheckEffect;
    FailureIsMove(site, table);
    CheckKeepsTable(table, op);
    match op
    case Prepare(spec) => if ValidSpec(spec) { PrepareMove(site, table, spec, schema, nonce); }
    case Commit(key) => PhaseMoves(site, table, key);
    case BeginAbort(key) => PhaseMoves(site, table, key);
    case BeginDelete(key) => PhaseMoves(site, table, key);
    case CompleteAbort(key) => CompletionMoves(site, table, key);
    case CompleteDelete(key) => CompletionMoves(site, table, key);
    case _ =>
  }

  /** What making one planned move durable leaves, by the answers of hook and file system. */
  ghost predicate PersistCases(j: Journal, disk: Image, move: Move, env: Env, a: Applied)
    requires move.Move?
  {
    var moved := Store(j.table, move.key, move.next);
    var revoked := MustRevoke(j, Lookup(j.table, move.key));
    && (a.reply.Ok? ==>
          && j.revision < U64_MAX && env.persist == Persisted
          && a.journal == j.(table := moved, revision := j.revision + 1,
                             instance := if j.instance.Some? then j.instance else Some(env.newId))
          && a.disk == Image(moved, j.required)
          && a.revoked == revoked && !(revoked.Some? && env.hookFails))
    && (a.reply.Err? ==>
          || (a.journal == j && a.disk == disk && a.revoked == None && j.revision == U64_MAX && a.reply.error == InvalidTransition)
          || (a.journal == j.(instance := None) && a.revoked == revoked && a.reply.error in {Io, Retirement} &&
              (a.disk == disk ||
               (a.disk == Image(moved, j.required) && env.persist == FailedAfterRename && !(revoked.Some? && env.hookFails)))))
  }

  lemma {:induction false} PersistMutationCases(j: Journal, disk: Image, key: Key, next: Option<Record>, attachment: Option<Record>, env: Env)
    requires j.revision <= U64_MAX
    ensures PersistCases(j, disk, Move(key, next), env,
                         PersistMutation(j.(table := Store(j.table, key, next)), disk, key, Lookup(j.table, key), attachment, env))
  {
    StoreRestores(j.table, key, next);
  }

  /** The complete effect of one transaction on memory, disk and retirement hook. */
  lemma {:induction false} ApplyCases(site: Site, j: Journal, disk: Image, schema: nat, op: Operation, env: Env)
    requires ValidProvider(site.provider) && ValidTable(site, j.table) && j.revision <= U64_MAX
    ensures var a := Apply(site, j, disk, schema, op, env);
      match PlannedMove(site, j, schema, op, env.nonce)
      case Still => a.journal == j && a.disk == disk && a.revoked == None
      case Move(key, next) =>
        && MutationKey(op) == Some(key)
        && LegalMove(Lookup(j.table, key), next)
        && ValidTable(site, Store(j.table, key, next))
        && PersistCases(j, disk, Move(key, next), env, a)
  {
    hide OperationEffect, LegacyBlocked, PersistMutation, PersistCases, ValidTable, LegalMove;
    EffectIsMove(site, j.table, op, schema, env.nonce);
    var move := PlannedMove(site, j, schema, op, env.nonce);
    if move.Move? {
      var effect := OperationEffect(site, j.table, op, schema, env.nonce).value;
      assert effect.table != j.table;
      PersistMutationCases(j, disk, move.key, move.next, effect.attachment, env);
    }
  }

  /** Disk content one legal one-key move ahead of a table, or equal to it. */
  ghost predicate Near(table: Table, durable: Table) {
    table == durable ||
    exists key, next :: durable == Store(table, key, next) && LegalMove(Lookup(table, key), next)
  }

  /** One node over time. A closed journal keeps the table it last acknowledged. */
  datatype World = World(open: bool, journal: Journal, disk: Image, nextId: nat)

  datatype Event =
    | Transact(schema: nat, op: Operation, env: Env)
    | Install(hook: nat)
    | InstallForReaders(hook: nat, persist: PersistOutcome)
    | Crash
    | Open

  ghost function Next(site: Site, w: World, e: Event): World
    requires ValidProvider(site.provider)
  {
    var step := match e
      case Transact(schema, op, env) =>
        if w.open then
          var a := Apply(site, w.journal, w.disk, schema, op, env.(newId := w.nextId));
          w.(journal := a.journal, disk := a.disk)
        else w
      case Install(hook) =>
        if w.open then w.(journal := InstallRetirement(w.journal, hook, w.nextId).0) else w
      case InstallForReaders(hook, persist) =>
        if w.open then
          var i := InstallRequired(w.journal, w.disk, hook, w.nextId, persist);
          w.(journal := i.journal, disk := i.disk)
        else w
      case Crash => w.(open := false)
      case Open =>
        var loaded := Load(site, Encode(site, w.disk));
        if w.open || loaded.None? then w
        else w.(open := true, journal := OpenJournal(loaded.value, w.nextId));
    step.(nextId := w.nextId + 1)
  }

  ghost function Run(site: Site, w: World, events: seq<Event>): World
    requires ValidProvider(site.provider)
    decreases |events|
  {
    if events == [] then w else Run(site, Next(site, w, events[0]), events[1..])
  }

  /** A node whose journal file does not exist yet. */
  const FirstBoot := World(false, Journal(map[], None, 0, None, false), Image(map[], false), 0)

  ghost predicate Inv(site: Site, w: World) {
    && ValidTable(site, w.journal.table)
    && ValidTable(site, w.disk.table)
    && Near(w.journal.table, w.disk.table)
    && (w.open && w.journal.instance.Some? ==> w.disk == Image(w.journal.table, w.journal.required))
    && (w.disk.required ==> w.journal.required)
    && w.journal.revision <= U64_MAX
    && (w.journal.instance.Some? ==> w.journal.instance.value < w.nextId)
  }

  /** The file always opens again, to what it holds. */
  lemma {:induction false} LoadsAgain(site: Site, w: World)
    requires Inv(site, w)
    ensures Load(site, Encode(site, w.disk)) == Some(w.disk)
  {
    LoadEncode(site, w.disk);
  }

  lemma {:induction false} NextKeepsInv(site: Site, w: World, e: Event)
    requires ValidProvider(site.provider) && Inv(site, w)
    ensures Inv(site, Next(site, w, e))
    ensures w.disk.required ==> Next(site, w, e).disk.required
  {
    hide Apply, PlannedMove, ValidTable, LegalMove, Encode, Load;
    match e
    case Transact(schema, op, env) =>
      if w.open { ApplyCases(site, w.journal, w.disk, schema, op, env.(newId := w.nextId)); }
    case Install(_) =>
    case InstallForReaders(_, _) =>
    case Crash =>
    case Open => LoadEncode(site, w.disk);
  }

  lemma {:induction false} RunKeepsInv(site: Site, w: World, events: seq<Event>)
    requires ValidProvider(site.provider) && Inv(site, w)
    ensures Inv(site, Run(site, w, events))
    ensures w.disk.required ==> Run(site, w, events).disk.required
    decreases |events|
  {
    if events != [] {
      NextKeepsInv(site, w, events[0]);
      RunKeepsInv(site, Next(site, w, events[0]), events[1..]);
    }
  }

  /** In every run from first boot the file holds the acknowledged table or that table
      with one record moved by one legal transition; with a fence it holds exactly the
      memory; what it holds always opens again, to the same table and requirement. */
  lemma {:induction false} DiskTracksMemory(site: Site, events: seq<Event>)
    requires ValidProvider(site.provider)
    ensures var w := Run(site, FirstBoot, events);
      && Near(w.journal.table, w.disk.table)
      && (w.open && w.journal.instance.Some? ==> w.disk == Image(w.journal.table, w.journal.required))
      && Load(site, Encode(site, w.disk)) == Some(w.disk)
      && Load(site, Encode(site, Image(w.journal.table, w.journal.required))) == Some(Image(w.journal.table, w.journal.required))
  {
    RunKeepsInv(site, FirstBoot, events);
    var w := Run(site, FirstBoot, events);
    LoadEncode(site, w.disk);
    LoadEncode(site, Image(w.journal.table, w.journal.required));
  }

  /** Once readers must install a hook, every later image and every later open journal says so. */
  lemma {:induction false} RequirementIsSticky(site: Site, before: seq<Event>, after: seq<Event>)
    requires ValidProvider(site.provider)
    requires Run(site, FirstBoot, before).disk.required
    ensures var w := Run(site, Run(site, FirstBoot, before), after);
      w.disk.required && w.journal.required
  {
    RunKeepsInv(site, FirstBoot, before);
    RunKeepsInv(site, Run(site, FirstBoot, before), after);
  }

  /** A cut that can never be current again. */
  predicate Dead(w: World, cut: Cut) {
    && cut.instance < w.nextId
    && (!w.open || w.journal.instance != Some(cut.instance) || cut.revision < w.journal.revision)
  }

  ghost predicate Fenced(w: World, cut: Cut) {
    w.open && IsCurrent(w.journal, cut)
  }

  lemma {:induction false} DeadStaysDead(site: Site, w: World, e: Event, cut: Cut)
    requires ValidProvider(site.provider) && Inv(site, w) && Dead(w, cut)
    ensures Dead(Next(site, w, e), cut)
  {
    hide Apply, PlannedMove, ValidTable, LegalMove, Encode, Load;
    match e
    case Transact(schema, op, env) =>
      if w.open { ApplyCases(site, w.journal, w.disk, schema, op, env.(newId := w.nextId)); }
    case Install(_) =>
    case InstallForReaders(_, _) =>
    case Crash =>
    case Open =>
  }

  lemma {:induction false} DeadForever(site: Site, w: World, events: seq<Event>, cut: Cut)
    requires ValidProvider(site.provider) && Inv(site, w) && Dead(w, cut)
    ensures Dead(Run(site, w, events), cut) && !Fenced(Run(site, w, events), cut)
    decreases |events|
  {
    if events != [] {
      NextKeepsInv(site, w, events[0]);
      DeadStaysDead(site, w, events[0], cut);
      DeadForever(site, Next(site, w, events[0]), events[1..], cut);
    }
  }

  /** Events that kill every cut taken before them. */
  ghost predicate Invalidates(site: Site, w: World, e: Event)
    requires ValidProvider(site.provider)
  {
    w.open &&
    match e
    case Transact(schema, op, env) =>
      Apply(site, w.journal, w.disk, schema, op, env.(newId := w.nextId)).reply in {Err(Io), Err(Retirement)}
      && PlannedMove(site, w.journal, schema, op, env.nonce).Move?
    case Install(hook) => w.journal.hook.None? && w.journal.instance.Some?
    case InstallForReaders(hook, _) => w.journal.hook.None? && w.journal.instance.Some?
    case Crash => true
    case Open => false
  }

  /** One step from a current cut: either nothing at all changed, or the cut is dead. */
  lemma {:induction false} CutStep(site: Site, w: World, e: Event, cut: Cut)
    requires ValidProvider(site.provider) && Inv(site, w) && Fenced(w, cut)
    ensures var n := Next(site, w, e);
      Dead(n, cut) || (Fenced(n, cut) && n.journal.table == w.journal.table && n.disk == w.disk)
    ensures Invalidates(site, w, e) ==> Dead(Next(site, w, e), cut)
  {
    hide Apply, PlannedMove, ValidTable, LegalMove, Encode, Load;
    match e
    case Transact(schema, op, env) =>
      ApplyCases(site, w.journal, w.disk, schema, op, env.(newId := w.nextId));
    case Install(_) =>
    case InstallForReaders(_, _) =>
    case Crash =>
    case Open =>
  }

  /** No ABA: a cut that is current at two points of a run was current at every point
      between, with the same table in memory and the same file on disk throughout. */
  lemma {:induction false} CutFreezesJournal(site: Site, w: World, events: seq<Event>, cut: Cut, n: nat)
    requires ValidProvider(site.provider) && Inv(site, w) && n <= |events|
    requires Fenced(w, cut) && Fenced(Run(site, w, events), cut)
    ensures var m := Run(site, w, events[..n]);
      Fenced(m, cut) && m.journal.table == w.journal.table && m.disk == w.disk
    decreases |events|
  {
    if n > 0 {
      var next, rest := Next(site, w, events[0]), events[1..];
      CutStep(site, w, events[0], cut);
      NextKeepsInv(site, w, events[0]);
      if Dead(next, cut) { DeadForever(site, next, rest, cut); }
      CutFreezesJournal(site, next, rest, cut, n - 1);
      assert events[..n][0] == events[0] && events[..n][1..] == rest[..n - 1];
    } else {
      assert events[..n] == [];
    }
  }

  /** A cut from before a failed write, a failed hook, a hook installation or a crash
      is never current again, whatever follows. */
  lemma {:induction false} InvalidatedCutNeverReturns(site: Site, w: World, e: Event, events: seq<Event>, cut: Cut)
    requires ValidProvider(site.provider) && Inv(site, w) && Fenced(w, cut) && Invalidates(site, w, e)
    ensures !Fenced(Run(site, Next(site, w, e), events), cut)
  {
    CutStep(site, w, e, cut);
    NextKeepsInv(site, w, e);
    DeadForever(site, Next(site, w, e), events, cut);
  }
}
