/** The attachment journal as transitions on values: the phase machine of one record,
    the one-record rollback, the durable image and the process-local snapshot fence. */
module JournalModel {
  import opened Results
  import opened Attachments

  const CURRENT_SCHEMA := 4
  const UID_SCHEMA := 3
  const LEGACY_SCHEMA := 2
  const MAX_LIST_RECORDS := 8
  const U64_MAX := 0xFFFF_FFFF_FFFF_FFFF

  /** What one node fixes: its address blocks and its key-to-interface derivation. */
  datatype Site = Site(provider: Provider, hostName: Key -> string)

  datatype Operation =
    | Status
    | List(network: string, after: Option<Key>, limit: nat)
    | Inspect(key: Key)
    | Prepare(spec: Spec)
    | Commit(key: Key)
    | BeginAbort(key: Key)
    | CompleteAbort(key: Key)
    | Check(spec: Spec)
    | BeginDelete(key: Key)
    | CompleteDelete(key: Key)

  datatype Error = Invalid | NotFound | Conflict | InvalidTransition | IncompatibleSchema | Io | Retirement | Ipam(ipam: IpamError)

  /** The key a mutating operation may change. */
  function MutationKey(op: Operation): Option<Key> {
    match op
    case Prepare(spec) => Some(spec.key)
    case Commit(key) => Some(key)
    case BeginAbort(key) => Some(key)
    case CompleteAbort(key) => Some(key)
    case BeginDelete(key) => Some(key)
    case CompleteDelete(key) => Some(key)
    case Status => None
    case List(_, _, _) => None
    case Inspect(_) => None
    case Check(_) => None
  }

  function Lookup(table: Table, key: Key): Option<Record> {
    if key in table then Some(table[key]) else None
  }

  function Store(table: Table, key: Key, record: Option<Record>): Table {
    match record
    case Some(r) => table[key := r]
    case None => table - {key}
  }

  /** The table an operation leaves and the record it returns. */
  datatype Effect = Effect(table: Table, attachment: Option<Record>)

  function PrepareEffect(site: Site, table: Table, spec: Spec, schema: nat, nonce: Option<Token>): Result<Effect, Error>
    requires ValidProvider(site.provider)
  {
    if spec.key in table then
      var existing := table[spec.key];
      if !existing.spec.AcceptsReplay(spec) then Err(Conflict)
      else if existing.phase == Preparing then Ok(Effect(table, Some(existing)))
      else Err(InvalidTransition)
    else if exists k :: k in table && table[k].hostInterface == site.hostName(spec.key) then Err(Conflict)
    else
      var granted := Allocate(site.provider, table);
      if granted.Err? then Err(Ipam(granted.error))
      else
        var bound := schema == CURRENT_SCHEMA && spec.workloadUid.Some?;
        if bound && nonce.None? then Err(Io)
        else if bound && (nonce.value == 0 || exists k :: k in table && table[k].token == nonce) then Err(Conflict)
        else
          var token := if bound then nonce else None;
          var record := Record(spec, site.hostName(spec.key), granted.value, Preparing, token);
          Ok(Effect(table[spec.key := record], Some(record)))
  }

  function CommitEffect(table: Table, key: Key): Result<Effect, Error> {
    if key !in table then Err(NotFound)
    else match table[key].phase
      case Preparing =>
        var record := table[key].(phase := Ready);
        Ok(Effect(table[key := record], Some(record)))
      case Ready => Ok(Effect(table, Some(table[key])))
      case Aborting => Err(InvalidTransition)
      case Deleting => Err(InvalidTransition)
  }

  function BeginAbortEffect(table: Table, key: Key): Result<Effect, Error> {
    if key !in table then Ok(Effect(table, None))
    else if table[key].phase in {Preparing, Aborting} then
      var record := table[key].(phase := Aborting);
      Ok(Effect(table[key := record], Some(record)))
    else Err(InvalidTransition)
  }

  function CompleteEffect(table: Table, key: Key, from: Phase): Result<Effect, Error> {
    if key !in table then Ok(Effect(table, None))
    else if table[key].phase != from then Err(InvalidTransition)
    else Ok(Effect(table - {key}, None))
  }

  function BeginDeleteEffect(table: Table, key: Key): Result<Effect, Error> {
    if key !in table then Ok(Effect(table, None))
    else if table[key].phase == Aborting then Err(InvalidTransition)
    else
      var record := table[key].(phase := Deleting);
      Ok(Effect(table[key := record], Some(record)))
  }

  function CheckEffect(table: Table, spec: Spec): Result<Effect, Error> {
    if spec.key !in table then Err(NotFound)
    else if !table[spec.key].spec.AcceptsReplay(spec) then Err(Conflict)
    else if table[spec.key].phase != Ready then Err(InvalidTransition)
    else Ok(Effect(table, Some(table[spec.key])))
  }

  predicate ValidListing(network: string, after: Option<Key>, limit: nat) {
    && ValidIdentifier(network, MAX_IDENTIFIER_BYTES)
    && (after.Some? ==> ValidKey(after.value))
    && 1 <= limit <= MAX_LIST_RECORDS
  }

  /** One validated operation on the table. A listing leaves the table alone; what it
      returns is Listing below. */
  function OperationEffect(site: Site, table: Table, op: Operation, schema: nat, nonce: Option<Token>): Result<Effect, Error>
    requires ValidProvider(site.provider)
  {
    match op
    case Status => Ok(Effect(table, None))
    case List(network, after, limit) =>
      if ValidListing(network, after, limit) then Ok(Effect(table, None)) else Err(Invalid)
    case Inspect(key) => if ValidKey(key) then Ok(Effect(table, Lookup(table, key))) else Err(Invalid)
    case Prepare(spec) => if ValidSpec(spec) then PrepareEffect(site, table, spec, schema, nonce) else Err(Invalid)
    case Commit(key) => if ValidKey(key) then CommitEffect(table, key) else Err(Invalid)
    case BeginAbort(key) => if ValidKey(key) then BeginAbortEffect(table, key) else Err(Invalid)
    case CompleteAbort(key) => if ValidKey(key) then CompleteEffect(table, key, Aborting) else Err(Invalid)
    case Check(spec) => if ValidSpec(spec) then CheckEffect(table, spec) else Err(Invalid)
    case BeginDelete(key) => if ValidKey(key) then BeginDeleteEffect(table, key) else Err(Invalid)
    case CompleteDelete(key) => if ValidKey(key) then CompleteEffect(table, key, Deleting) else Err(Invalid)
  }

  /** A record an older client cannot represent. */
  predicate Unreadable(record: Record, schema: nat) {
    record.token.Some? || (schema == LEGACY_SCHEMA && record.spec.workloadUid.Some?)
  }

  /** Operations of older clients that would read or change such a record. */
  predicate LegacyBlocked(table: Table, schema: nat, op: Operation) {
    match op
    case Status => false
    case List(network, after, _) =>
      exists k :: k in table && table[k].spec.key.network == network &&
                  (after.None? || KeyLess(after.value, table[k].spec.key)) && Unreadable(table[k], schema)
    case Prepare(spec) =>
      (schema == LEGACY_SCHEMA && spec.workloadUid.Some?) || (spec.key in table && Unreadable(table[spec.key], schema))
    case Check(spec) =>
      (schema == LEGACY_SCHEMA && spec.workloadUid.Some?) || (spec.key in table && Unreadable(table[spec.key], schema))
    case Inspect(key) => key in table && Unreadable(table[key], schema)
    case Commit(key) => key in table && Unreadable(table[key], schema)
    case BeginAbort(key) => key in table && Unreadable(table[key], schema)
    case CompleteAbort(key) => key in table && Unreadable(table[key], schema)
    case BeginDelete(key) => key in table && Unreadable(table[key], schema)
    case CompleteDelete(key) => key in table && Unreadable(table[key], schema)
  }

  /** The open journal. `instance` and `hook` are process-local identities. */
  datatype Journal = Journal(table: Table, instance: Option<nat>, revision: nat, hook: Option<nat>, required: bool) {
    predicate Serving() { required ==> hook.Some? }
  }

  /** What a reader of the journal file recovers; an absent file is the empty image. */
  datatype Image = Image(table: Table, required: bool)

  datatype Cut = Cut(instance: nat, revision: nat)

  function TakeCut(j: Journal): Option<Cut> {
    if j.Serving() && j.instance.Some? then Some(Cut(j.instance.value, j.revision)) else None
  }

  predicate IsCurrent(j: Journal, cut: Cut) {
    j.Serving() && j.instance == Some(cut.instance) && j.revision == cut.revision
  }

  /** A write of the journal file may fail before or after the atomic rename. */
  datatype PersistOutcome = Persisted | FailedBeforeRename | FailedAfterRename

  function WriteImage(disk: Image, image: Image, outcome: PersistOutcome): Image {
    if outcome == FailedBeforeRename then disk else image
  }

  /** What one call finds outside the journal: randomness, the hook's and the file
      system's answers, and a never-used instance identity. */
  datatype Env = Env(nonce: Option<Token>, hookFails: bool, persist: PersistOutcome, newId: nat)

  /** State after a call. `revoked` is the nonce handed to the retirement hook, if any. */
  datatype Applied = Applied(journal: Journal, disk: Image, revoked: Option<Token>, reply: Result<Option<Record>, Error>)

  /** The nonce a mutation of `previous` must revoke before it may reach the disk. */
  function MustRevoke(j: Journal, previous: Option<Record>): Option<Token> {
    if previous.Some? && previous.value.phase == Ready && j.hook.Some? then previous.value.token else None
  }

  /** Makes the mutated table of `j` durable, or rolls its one changed record back. */
  function PersistMutation(j: Journal, disk: Image, key: Key, previous: Option<Record>, attachment: Option<Record>, env: Env): Applied {
    var restored := j.(table := Store(j.table, key, previous));
    if j.revision == U64_MAX then Applied(restored, disk, None, Err(InvalidTransition))
    else
      var revoked := MustRevoke(j, previous);
      if revoked.Some? && env.hookFails then
        Applied(restored.(instance := None), disk, revoked, Err(Retirement))
      else
        var written := WriteImage(disk, Image(j.table, j.required), env.persist);
        if env.persist != Persisted then
          Applied(restored.(instance := None), written, revoked, Err(Io))
        else
          var instance := if j.instance.Some? then j.instance else Some(env.newId);
          Applied(j.(revision := j.revision + 1, instance := instance), written, revoked, Ok(attachment))
  }

  /** One transaction. */
  function Apply(site: Site, j: Journal, disk: Image, schema: nat, op: Operation, env: Env): Applied
    requires ValidProvider(site.provider)
  {
    if !j.Serving() then Applied(j, disk, None, Err(InvalidTransition))
    else if schema !in {CURRENT_SCHEMA, UID_SCHEMA, LEGACY_SCHEMA} then Applied(j, disk, None, Err(IncompatibleSchema))
    else if schema != CURRENT_SCHEMA && LegacyBlocked(j.table, schema, op) then Applied(j, disk, None, Err(IncompatibleSchema))
    else
      var result := OperationEffect(site, j.table, op, schema, env.nonce);
      match result
      case Err(error) => Applied(j, disk, None, Err(error))
      case Ok(effect) =>
        var key := MutationKey(op);
        if key.Some? && Lookup(effect.table, key.value) != Lookup(j.table, key.value) then
          PersistMutation(j.(table := effect.table), disk, key.value, Lookup(j.table, key.value), effect.attachment, env)
        else Applied(j, disk, None, Ok(effect.attachment))
  }

  /** What a listing returns: the network's records past the cursor, in key order, at most `limit`. */
  ghost function Listing(table: Table, network: string, after: Option<Key>, limit: nat): seq<Record> {
    var past := set k | k in table && k.network == network && (after.None? || KeyLess(after.value, k));
    var keys := SortedKeys(past);
    var page := if |keys| <= limit then keys else keys[..limit];
    seq(|page|, i requires 0 <= i < |page| => table[page[i]])
  }

  /** Opening a journal from a valid image never restores a hook or a fence. */
  function OpenJournal(image: Image, newId: nat): Journal {
    Journal(image.table, Some(newId), 0, None, image.required)
  }

  datatype Installed = Installed(journal: Journal, disk: Image, registration: Option<nat>)

  function InstallRetirement(j: Journal, hook: nat, newId: nat): (Journal, Option<nat>) {
    if j.hook.Some? || j.instance.None? then (j, None)
    else (j.(hook := Some(hook), instance := Some(newId)), Some(hook))
  }

  /** Installs the hook and durably requires hook-aware readers. */
  function InstallRequired(j: Journal, disk: Image, hook: nat, newId: nat, persist: PersistOutcome): Installed {
    var (installed, registration) := InstallRetirement(j, hook, newId);
    if registration.None? then Installed(j, disk, None)
    else if installed.required then Installed(installed, disk, registration)
    else
      var demanding := installed.(required := true);
      var written := WriteImage(disk, Image(j.table, true), persist);
      if persist == Persisted then Installed(demanding, written, registration)
      else Installed(demanding.(instance := None), written, None)
  }

  /** The one-record moves the phase machine allows; None is an absent record. */
  predicate LegalMove(before: Option<Record>, after: Option<Record>) {
    match (before, after)
    case (None, Some(b)) => b.phase == Preparing
    case (Some(a), None) => a.phase in {Aborting, Deleting}
    case (Some(a), Some(b)) =>
      && a.(phase := b.phase) == b
      && (a.phase, b.phase) in {(Preparing, Ready), (Preparing, Aborting), (Preparing, Deleting), (Ready, Deleting)}
    case (None, None) => false
  }

  /** What every table the journal can hold satisfies. */
  ghost predicate ValidTable(site: Site, table: Table) {
    && (forall k :: k in table ==> ValidRecord(site, k, table[k]))
    && DistinctLeases(table)
    && (forall a, b :: a in table && b in table && a != b ==> table[a].hostInterface != table[b].hostInterface)
    && (forall a, b :: a in table && b in table && a != b && table[a].token.Some? ==> table[a].token != table[b].token)
  }

  ghost predicate ValidRecord(site: Site, key: Key, record: Record) {
    && record.spec.key == key
    && ValidSpec(record.spec)
    && record.hostInterface == site.hostName(key)
    && ValidLease(site.provider, record.lease)
    && (record.token.Some? ==> record.token.value != 0 && record.spec.workloadUid.Some?)
  }
}
