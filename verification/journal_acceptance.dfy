/** What the journal grants, checks and refuses: free addresses, CHECK, and older clients. */
module JournalAcceptance {
  import opened Results
  import opened Bits
  import opened Attachments
  import opened JournalModel

  function Smaller(a: nat, b: nat): nat { if a < b then a else b }

  /** An offset of the block that no record uses. */
  ghost predicate FreeIn(network: nat, capacity: nat, used: set<nat>) {
    exists ip :: network + 2 <= ip < network + 2 + capacity && ip !in used
  }

  /** A lease is granted exactly while the recorded ones are distinct and fewer than 65,536 and
      each block has a free address among its first 65,536, the reserved ones not counted; and
      it is the lowest free one of each. */
  lemma {:induction false} AllocateExactly(p: Provider, table: Table)
    requires ValidProvider(p)
    ensures Pow2(p.hostBits4) >= 4 && Pow2(p.hostBits6) >= 4
    ensures var used4, used6 := set k | k in table :: table[k].lease.ipv4, set k | k in table :: table[k].lease.ipv6;
      var r := Allocate(p, table);
      && (r.Ok? <==>
            && (forall a, b :: a in table && b in table && a != b ==> table[a].lease.ipv4 != table[b].lease.ipv4 && table[a].lease.ipv6 != table[b].lease.ipv6)
            && |table| < 65536
            && FreeIn(p.network4, Smaller(Pow2(p.hostBits4) - 4, 65536), used4)
            && FreeIn(p.network6, Smaller(Pow2(p.hostBits6) - 2, 65536), used6))
      && (r.Ok? ==> (forall ip :: p.network4 + 2 <= ip < r.value.ipv4 ==> ip in used4) && forall ip :: p.network6 + 2 <= ip < r.value.ipv6 ==> ip in used6)
  {
    hide Pow2, FirstFree;
    Capacities(p);
    var used4, used6 := set k | k in table :: table[k].lease.ipv4, set k | k in table :: table[k].lease.ipv6;
    FirstFreeExactly(p.network4, Capacity4(p), used4);
    FirstFreeExactly(p.network6, Capacity6(p), used6);
  }

  lemma {:induction false} FirstFreeExactly(network: nat, capacity: nat, used: set<nat>)
    ensures FirstFree(network, 0, capacity, used).Some? <==> FreeIn(network, capacity, used)
  {
    hide FirstFree;
    var found := FirstFree(network, 0, capacity, used);
  }

  lemma {:induction false} Capacities(p: Provider)
    requires ValidProvider(p)
    ensures Pow2(p.hostBits4) >= 4 && Pow2(p.hostBits6) >= 4
    ensures Capacity4(p) == Smaller(Pow2(p.hostBits4) - 4, 65536) && Capacity6(p) == Smaller(Pow2(p.hostBits6) - 2, 65536)
  {
    FourAtTwo();
    Pow2Monotone(2, p.hostBits4);
    Pow2Monotone(2, p.hostBits6);
    Pow2At17();
    SixteenBits();
    if p.hostBits6 >= 17 { Pow2Monotone(17, p.hostBits6); } else { Pow2Monotone(p.hostBits6, 16); }
    hide Pow2;
  }

  lemma {:induction false} FourAtTwo()
    ensures Pow2(2) == 4
  {
  }

  lemma {:induction false} SixteenBits()
    ensures Pow2(16) == 65536
  {
    Pow2At17();
    assert Pow2(17) == 2 * Pow2(16);
  }

  /** The record is Ready and of this request. */
  predicate Checked(table: Table, spec: Spec) {
    && spec.key in table
    && var r := table[spec.key];
    && r.phase == Ready && r.spec.key == spec.key && r.spec.netns == spec.netns && r.spec.mtu == spec.mtu
    && (r.spec.workloadUid.Some? ==> spec.workloadUid == r.spec.workloadUid)
  }

  /** CHECK answers with the record exactly for a valid request of a Ready record of the same
      key, namespace, MTU and, where bound, workload, and never changes anything. */
  lemma {:induction false} CheckExactly(site: Site, j: Journal, disk: Image, spec: Spec, env: Env)
    requires ValidProvider(site.provider)
    ensures var a := Apply(site, j, disk, CURRENT_SCHEMA, Check(spec), env);
      && a.journal == j && a.disk == disk && a.revoked == None
      && (a.reply.Ok? <==> j.Serving() && ValidSpec(spec) && Checked(j.table, spec))
      && (a.reply.Ok? ==> a.reply.value == Some(j.table[spec.key]))
      && (j.Serving() && ValidSpec(spec) && spec.key !in j.table ==> a.reply == Err(NotFound))
  {
    hide ValidSpec, LegacyBlocked;
  }

  /** The records an operation reads or changes. */
  predicate Concerns(op: Operation, key: Key) {
    match op
    case Status => false
    case List(network, after, _) => key.network == network && (after.None? || KeyLess(after.value, key))
    case Inspect(k) => key == k
    case Prepare(spec) => key == spec.key
    case Commit(k) => key == k
    case BeginAbort(k) => key == k
    case CompleteAbort(k) => key == k
    case Check(spec) => key == spec.key
    case BeginDelete(k) => key == k
    case CompleteDelete(k) => key == k
  }

  /** What a client of this schema can represent: no creation nonce, and before the schema that
      introduced them no workload either. */
  predicate Readable(r: Record, schema: nat) { r.token.None? && (schema == LEGACY_SCHEMA ==> r.spec.workloadUid.None?) }

  /** An older client asks about something it cannot represent. */
  predicate Foreign(table: Table, schema: nat, op: Operation) {
    || (schema == LEGACY_SCHEMA && (op.Prepare? || op.Check?) && op.spec.workloadUid.Some?)
    || exists k :: k in table && Concerns(op, k) && !Readable(table[k], schema)
  }

  lemma {:induction false} BlockedExactly(site: Site, table: Table, schema: nat, op: Operation)
    requires ValidTable(site, table)
    ensures LegacyBlocked(table, schema, op) <==> Foreign(table, schema, op)
  {
    hide ValidSpec, ValidLease, KeyLess, DistinctLeases;
    forall k | k in table ensures table[k].spec.key == k { assert ValidRecord(site, k, table[k]); }
  }

  /** An older client is refused exactly when its request concerns a record or names a workload it
      cannot represent. Otherwise it is answered as a current client would be, but for a new
      record, which it gets without a nonce; and every record it is shown it can represent. */
  lemma {:induction false} OlderClients(site: Site, j: Journal, disk: Image, schema: nat, op: Operation, env: Env)
    requires ValidProvider(site.provider) && ValidTable(site, j.table) && j.Serving() && schema in {UID_SCHEMA, LEGACY_SCHEMA}
    ensures var a := Apply(site, j, disk, schema, op, env);
      && (Foreign(j.table, schema, op) ==> a == Applied(j, disk, None, Err(IncompatibleSchema)))
      && (!Foreign(j.table, schema, op) && !op.Prepare? ==> a == Apply(site, j, disk, CURRENT_SCHEMA, op, env))
      && (a.reply.Ok? && a.reply.value.Some? ==> Readable(a.reply.value.value, schema))
  {
    hide ValidTable, LegacyBlocked, ValidSpec, ValidKey, Foreign;
    BlockedExactly(site, j.table, schema, op);
    if !Foreign(j.table, schema, op) { ShownIsReadable(site, j, disk, schema, op, env); }
  }

  lemma {:induction false} ShownIsReadable(site: Site, j: Journal, disk: Image, schema: nat, op: Operation, env: Env)
    requires ValidProvider(site.provider) && j.Serving() && schema in {UID_SCHEMA, LEGACY_SCHEMA} && !Foreign(j.table, schema, op)
    ensures var a := Apply(site, j, disk, schema, op, env);
      a.reply.Ok? && a.reply.value.Some? ==> Readable(a.reply.value.value, schema)
  {
    hide LegacyBlocked, ValidSpec, ValidKey, ValidListing, Allocate;
    assert MutationKey(op).Some? ==> Concerns(op, MutationKey(op).value);
  }

  /** Nor does a listing show an older client a record it cannot represent. */
  lemma {:induction false} OlderListings(site: Site, table: Table, schema: nat, network: string, after: Option<Key>, limit: nat)
    requires ValidTable(site, table) && !LegacyBlocked(table, schema, List(network, after, limit))
    ensures forall r :: r in Listing(table, network, after, limit) ==> Readable(r, schema)
  {
    hide KeyLess, ValidTable, LegacyBlocked, Readable;
    BlockedExactly(site, table, schema, List(network, after, limit));
    forall r | r in Listing(table, network, after, limit) ensures Readable(r, schema) {
      var past := set k | k in table && k.network == network && (after.None? || KeyLess(after.value, k));
      var i :| 0 <= i < |Listing(table, network, after, limit)| && Listing(table, network, after, limit)[i] == r;
      assert SortedKeys(past)[i] in past;
    }
  }

  /** The phase a record has to be in for an operation on its key, None for no record. */
  predicate Admits(phase: Option<Phase>, op: Operation) {
    match op
    case Commit(_) => phase in {Some(Preparing), Some(Ready)}
    case BeginAbort(_) => phase in {None, Some(Preparing), Some(Aborting)}
    case CompleteAbort(_) => phase in {None, Some(Aborting)}
    case BeginDelete(_) => phase in {None, Some(Preparing), Some(Ready), Some(Deleting)}
    case CompleteDelete(_) => phase in {None, Some(Deleting)}
    case _ => true
  }

  /** The phase it leads to. */
  function Leads(phase: Option<Phase>, op: Operation): Option<Phase> {
    match op
    case Commit(_) => Some(Ready)
    case BeginAbort(_) => if phase.None? then None else Some(Aborting)
    case BeginDelete(_) => if phase.None? then None else Some(Deleting)
    case CompleteAbort(_) => None
    case CompleteDelete(_) => None
    case _ => phase
  }

  function PhaseOf(r: Option<Record>): Option<Phase> { if r.None? then None else Some(r.value.phase) }

  /** The phase machine: an operation on a key is served exactly in the phases that admit it,
      leaves the record in the phase it leads to and otherwise as it was, touches no other
      record, and answers with what is then there. */
  lemma {:induction false} PhasesExactly(site: Site, table: Table, op: Operation, schema: nat, nonce: Option<Token>)
    requires ValidProvider(site.provider) && MutationKey(op).Some? && !op.Prepare? && ValidKey(MutationKey(op).value)
    ensures var key := MutationKey(op).value; var before, effect := Lookup(table, key), OperationEffect(site, table, op, schema, nonce);
      && (effect.Ok? <==> Admits(PhaseOf(before), op))
      && (effect.Ok? ==> var after := Lookup(effect.value.table, key);
            && PhaseOf(after) == Leads(PhaseOf(before), op) && effect.value.attachment == after
            && (after.Some? ==> before.Some? && after.value == before.value.(phase := after.value.phase))
            && effect.value.table == Store(table, key, after))
  {
    hide ValidKey;
    var key := MutationKey(op).value;
    assert key in table ==> table[key := table[key]] == table;
    assert key !in table ==> table - {key} == table;
  }

  /** Asking again, whatever the file system and the hook would answer by then, repeats the
      answer and changes nothing: no record, no revision, no file, no nonce. */
  lemma {:induction false} RetryChangesNothing(site: Site, j: Journal, disk: Image, op: Operation, env: Env, later: Env)
    requires ValidProvider(site.provider) && Apply(site, j, disk, CURRENT_SCHEMA, op, env).reply.Ok?
    ensures var a := Apply(site, j, disk, CURRENT_SCHEMA, op, env);
      Apply(site, a.journal, a.disk, CURRENT_SCHEMA, op, later) == Applied(a.journal, a.disk, None, a.reply)
  {
    hide ValidTable, ValidKey, ValidSpec, ValidListing, Allocate, LegacyBlocked;
    var a := Apply(site, j, disk, CURRENT_SCHEMA, op, env);
    RepeatEffect(site, j.table, op, env.nonce, later.nonce);
  }

  lemma {:induction false} RepeatEffect(site: Site, table: Table, op: Operation, nonce: Option<Token>, later: Option<Token>)
    requires ValidProvider(site.provider) && OperationEffect(site, table, op, CURRENT_SCHEMA, nonce).Ok?
    ensures var effect := OperationEffect(site, table, op, CURRENT_SCHEMA, nonce).value;
      var again := OperationEffect(site, effect.table, op, CURRENT_SCHEMA, later);
      again.Ok? && again.value.attachment == effect.attachment
      && (MutationKey(op).Some? ==> Lookup(again.value.table, MutationKey(op).value) == Lookup(effect.table, MutationKey(op).value))
  {
    hide ValidKey, ValidSpec, ValidListing, Allocate;
  }

  /** The hook is handed a nonce exactly when a served request is about to change the Ready
      record that carries it; if the hook refuses, nothing is written and the record stays. */
  lemma {:induction false} RevokesExactly(site: Site, j: Journal, disk: Image, op: Operation, env: Env, nonce: Token)
    requires ValidProvider(site.provider)
    ensures var a := Apply(site, j, disk, CURRENT_SCHEMA, op, env);
      && (a.revoked == Some(nonce) <==>
            && j.Serving() && j.hook.Some? && j.revision != U64_MAX && op.BeginDelete? && ValidKey(op.key)
            && op.key in j.table && j.table[op.key].phase == Ready && j.table[op.key].token == Some(nonce))
      && (a.revoked.Some? && env.hookFails ==> a == Applied(j.(instance := None), disk, a.revoked, Err(Retirement)))
  {
    hide ValidKey, ValidSpec, ValidListing, Allocate, LegacyBlocked;
    if op.BeginDelete? && op.key in j.table { assert Store(j.table[op.key := j.table[op.key].(phase := Deleting)], op.key, Some(j.table[op.key])) == j.table; }
  }
}
