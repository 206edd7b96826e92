/** The pinned encryption maps: four tables whose keys carry a bank, and the causal delta
    that turns one bank into a desired image. */
module EncryptionMaps {
  import opened Results

  /** A table key: its bank byte and the remaining key bytes. */
  datatype EntryKey = EntryKey(bank: nat, rest: nat)

  type Entries = map<EntryKey, nat>

  /** The decision, transport and IPv4/IPv6 path tables, or one bank's share of them. */
  datatype Tables = Tables(decisions: Entries, transports: Entries, ipv4Paths: Entries, ipv6Paths: Entries) {
    function Size(): nat { |decisions| + |transports| + |ipv4Paths| + |ipv6Paths| }
  }

  const EMPTY_BANK := Tables(map[], map[], map[], map[])

  const BANK_COUNT := 2

  function Share(entries: Entries, bank: nat): Entries {
    map k | k in entries && k.bank == bank :: entries[k]
  }

  function ReadBank(tables: Tables, bank: nat): Tables {
    Tables(Share(tables.decisions, bank), Share(tables.transports, bank),
           Share(tables.ipv4Paths, bank), Share(tables.ipv6Paths, bank))
  }

  predicate InBank(entries: Entries, bank: nat) {
    forall k :: k in entries ==> k.bank == bank
  }

  /** An image all of whose keys carry `bank`. */
  predicate BankImage(image: Tables, bank: nat) {
    InBank(image.decisions, bank) && InBank(image.transports, bank) && InBank(image.ipv4Paths, bank) && InBank(image.ipv6Paths, bank)
  }

  /** Nothing outside `bank` differs. */
  ghost predicate SameElsewhere(before: Entries, after: Entries, bank: nat) {
    forall k: EntryKey :: k.bank != bank ==> (k in before <==> k in after) && (k in before ==> before[k] == after[k])
  }

  ghost predicate Within(before: Tables, after: Tables, bank: nat) {
    && SameElsewhere(before.decisions, after.decisions, bank)
    && SameElsewhere(before.transports, after.transports, bank)
    && SameElsewhere(before.ipv4Paths, after.ipv4Paths, bank)
    && SameElsewhere(before.ipv6Paths, after.ipv6Paths, bank)
  }

  lemma {:induction false} WithinKeepsOtherBanks(before: Tables, after: Tables, bank: nat, other: nat)
    requires Within(before, after, bank) && other != bank
    ensures ReadBank(after, other) == ReadBank(before, other)
  {
    assert Share(after.decisions, other) == Share(before.decisions, other);
    assert Share(after.transports, other) == Share(before.transports, other);
    assert Share(after.ipv4Paths, other) == Share(before.ipv4Paths, other);
    assert Share(after.ipv6Paths, other) == Share(before.ipv6Paths, other);
  }

  datatype Stats = Stats(inserted: nat, updated: nat, removed: nat, retained: nat)

  /** Exactly the keys of `dropped` are gone. */
  ghost predicate Pruned(before: Entries, after: Entries, dropped: set<EntryKey>) {
    && (forall k :: k in after <==> k in before && k !in dropped)
    && (forall k :: k in after ==> after[k] == before[k])
  }

  /** Every desired key not to do has its desired value, every other key its old one. */
  ghost predicate FilledSoFar(before: Entries, after: Entries, desired: Entries, todo: set<EntryKey>) {
    && (forall k :: k in after <==> k in before || (k in desired && k !in todo))
    && (forall k :: k in after ==> after[k] == if k in desired && k !in todo then desired[k] else before[k])
  }

  ghost predicate Filled(before: Entries, after: Entries, desired: Entries) {
    FilledSoFar(before, after, desired, {})
  }

  /** The keys a delta removes, inserts, updates and leaves. */
  ghost function Stale(current: Entries, desired: Entries): set<EntryKey> { current.Keys - desired.Keys }
  ghost function Missing(current: Entries, desired: Entries): set<EntryKey> { desired.Keys - current.Keys }
  ghost function Changed(current: Entries, desired: Entries): set<EntryKey> {
    set k | k in desired && k in current && current[k] != desired[k]
  }
  ghost function Same(current: Entries, desired: Entries): set<EntryKey> {
    set k | k in desired && k in current && current[k] == desired[k]
  }

  lemma {:induction false} SplitSize(a: set<EntryKey>, b: set<EntryKey>)
    requires a !! b
    ensures |a + b| == |a| + |b|
  {
  }

  lemma {:induction false} PartSize(a: set<EntryKey>, shared: set<EntryKey>, b: set<EntryKey>)
    requires shared == a * b
    ensures |a| == |a - b| + |shared|
  {
    SplitSize(a - b, shared);
    assert a == (a - b) + shared;
  }

  lemma {:induction false} SharedKeys(current: Entries, desired: Entries)
    ensures Changed(current, desired) !! Same(current, desired)
    ensures Changed(current, desired) + Same(current, desired) == desired.Keys * current.Keys
  {
  }

  /** The counters account for every old and every desired entry exactly once. */
  lemma {:induction false} DeltaCounts(current: Entries, desired: Entries)
    ensures |Missing(current, desired)| + |Changed(current, desired)| + |Same(current, desired)| == |desired|
    ensures |Stale(current, desired)| + |Changed(current, desired)| + |Same(current, desired)| == |current|
  {
    hide Changed, Same;
    SharedKeys(current, desired);
    var shared := desired.Keys * current.Keys;
    SplitSize(Changed(current, desired), Same(current, desired));
    PartSize(desired.Keys, shared, current.Keys);
    SharedEitherWay(current.Keys, desired.Keys);
    PartSize(current.Keys, shared, desired.Keys);
  }

  lemma {:induction false} SharedEitherWay(a: set<EntryKey>, b: set<EntryKey>)
    ensures a * b == b * a
  {
  }

  /** The members of `kind` that are no longer to do. */
  ghost predicate Counted(counted: set<EntryKey>, kind: set<EntryKey>, todo: set<EntryKey>) {
    forall k :: k in counted <==> k in kind && k !in todo
  }

  lemma {:induction false} AllCounted(counted: set<EntryKey>, kind: set<EntryKey>)
    requires Counted(counted, kind, {})
    ensures counted == kind
  {
  }

  lemma {:induction false} CountNext(counted: set<EntryKey>, kind: set<EntryKey>, todo: set<EntryKey>, key: EntryKey)
    requires Counted(counted, kind, todo) && key in todo
    ensures key !in counted
    ensures Counted(if key in kind then counted + {key} else counted, kind, todo - {key})
  {
  }

  lemma {:induction false} KindOf(current: Entries, desired: Entries, key: EntryKey)
    requires key in desired
    ensures key in Missing(current, desired) <==> key !in current
    ensures key in Changed(current, desired) <==> key in current && current[key] != desired[key]
    ensures key in Same(current, desired) <==> key in current && current[key] == desired[key]
  {
  }

  lemma {:induction false} FilledNext(before: Entries, after: Entries, desired: Entries, todo: set<EntryKey>, key: EntryKey)
    requires FilledSoFar(before, after, desired, todo) && key in todo && key in desired
    ensures FilledSoFar(before, after[key := desired[key]], desired, todo - {key})
    ensures key in before && before[key] == desired[key] ==> FilledSoFar(before, after, desired, todo - {key})
  {
  }

  lemma {:induction false} FillingStaysInBank(before: Entries, after: Entries, desired: Entries, todo: set<EntryKey>, bank: nat)
    requires FilledSoFar(before, after, desired, todo) && InBank(desired, bank)
    ensures SameElsewhere(before, after, bank)
  {
  }

  /** A key still to come makes the whole larger than what was counted so far. */
  lemma {:induction false} OneMoreKey(counted: set<EntryKey>, key: EntryKey, kind: set<EntryKey>)
    requires counted <= kind && key in kind && key !in counted
    ensures |counted| < |kind|
  {
    SubsetSize(counted + {key}, kind);
  }

  lemma {:induction false} SubsetSize(a: set<EntryKey>, b: set<EntryKey>)
    requires a <= b
    ensures |a| <= |b|
  {
    SplitSize(a, b - a);
    assert b == a + (b - a);
  }

  /** Removes the entries of `current` that `desired` lacks. The kernel accepts `budget`
      more writes and refuses the next one. */
  method Prune(entries: Entries, current: Entries, desired: Entries, bank: nat, budget: nat)
    returns (after: Entries, left: nat, removed: nat, ok: bool)
    requires InBank(current, bank)
    ensures SameElsewhere(entries, after, bank)
    ensures ok <==> |Stale(current, desired)| <= budget
    ensures ok ==> Pruned(entries, after, Stale(current, desired)) && removed == |Stale(current, desired)| && left == budget - removed
  {
    after, left, removed, ok := entries, budget, 0, true;
    var todo := current.Keys;
    ghost var dropped: set<EntryKey> := {};
    while todo != {}
      invariant ok && todo <= current.Keys && dropped <= current.Keys
      invariant Counted(dropped, Stale(current, desired), todo)
      invariant Pruned(entries, after, dropped)
      invariant removed == |dropped| && left + removed == budget
      decreases |todo|
    {
      var key :| key in todo;
      if key !in desired {
        if left == 0 {
          OneMoreKey(dropped, key, Stale(current, desired));
          ok := false;
          return;
        }
        after, left, removed := after - {key}, left - 1, removed + 1;
        dropped := dropped + {key};
      }
      todo := todo - {key};
    }
    AllCounted(dropped, Stale(current, desired));
  }

  lemma {:induction false} FilledStart(entries: Entries, current: Entries, desired: Entries)
    ensures FilledSoFar(entries, entries, desired, desired.Keys)
    ensures Counted({}, Missing(current, desired), desired.Keys)
    ensures Counted({}, Changed(current, desired), desired.Keys) && Counted({}, Same(current, desired), desired.Keys)
  {
  }

  /** A write still to come makes the writes more than those counted so far. */
  lemma {:induction false} WriteRefused(added: set<EntryKey>, changed: set<EntryKey>, current: Entries, desired: Entries, todo: set<EntryKey>, key: EntryKey)
    requires Counted(added, Missing(current, desired), todo) && Counted(changed, Changed(current, desired), todo)
    requires key in todo && key in desired && !(key in current && current[key] == desired[key])
    ensures |added| + |changed| < |Missing(current, desired)| + |Changed(current, desired)|
  {
    SubsetSize(added, Missing(current, desired));
    SubsetSize(changed, Changed(current, desired));
    if key in current { OneMoreKey(changed, key, Changed(current, desired)); } else { OneMoreKey(added, key, Missing(current, desired)); }
  }

  /** Writes the desired entries that are missing or differ. */
  method Fill(entries: Entries, current: Entries, desired: Entries, bank: nat, budget: nat)
    returns (after: Entries, left: nat, inserted: nat, updated: nat, retained: nat, ok: bool)
    requires InBank(desired, bank) && AgreesOn(current, entries, desired)
    ensures SameElsewhere(entries, after, bank)
    ensures ok <==> |Missing(current, desired)| + |Changed(current, desired)| <= budget
    ensures ok ==>
      && Filled(entries, after, desired) && left == budget - inserted - updated
      && inserted == |Missing(current, desired)| && updated == |Changed(current, desired)| && retained == |Same(current, desired)|
  {
    hide Counted, FilledSoFar, SameElsewhere, Missing, Changed, Same;
    after, left, inserted, updated, retained, ok := entries, budget, 0, 0, 0, true;
    FilledStart(entries, current, desired);
    var todo := desired.Keys;
    ghost var added: set<EntryKey>, changed: set<EntryKey>, kept: set<EntryKey> := {}, {}, {};
    while todo != {}
      invariant ok && todo <= desired.Keys
      invariant FilledSoFar(entries, after, desired, todo)
      invariant Counted(added, Missing(current, desired), todo) && inserted == |added|
      invariant Counted(changed, Changed(current, desired), todo) && updated == |changed|
      invariant Counted(kept, Same(current, desired), todo) && retained == |kept|
      invariant left + inserted + updated == budget
      decreases |todo|
    {
      var key :| key in todo;
      KindOf(current, desired, key);
      CountNext(added, Missing(current, desired), todo, key);
      CountNext(changed, Changed(current, desired), todo, key);
      CountNext(kept, Same(current, desired), todo, key);
      FilledNext(entries, after, desired, todo, key);
      FillingStaysInBank(entries, after, desired, todo, bank);
      if key in current && current[key] == desired[key] {
        retained, kept := retained + 1, kept + {key};
      } else {
        if left == 0 {
          WriteRefused(added, changed, current, desired, todo, key);
          ok := false;
          return;
        }
        after, left := after[key := desired[key]], left - 1;
        if key in current { updated, changed := updated + 1, changed + {key}; } else { inserted, added := inserted + 1, added + {key}; }
      }
      todo := todo - {key};
    }
    FillingStaysInBank(entries, after, desired, {}, bank);
    AllCounted(added, Missing(current, desired));
    AllCounted(changed, Changed(current, desired));
    AllCounted(kept, Same(current, desired));
  }

  /** Pruning then filling leaves exactly the desired entries in the bank. */
  lemma {:induction false} PrunedAndFilled(entries: Entries, pruned: Entries, after: Entries, desired: Entries, bank: nat)
    requires InBank(desired, bank)
    requires Pruned(entries, pruned, Stale(Share(entries, bank), desired))
    requires Filled(pruned, after, desired)
    ensures Share(after, bank) == desired
  {
  }

  ghost predicate PrunedAll(current: Tables, before: Tables, after: Tables, desired: Tables) {
    && Pruned(before.decisions, after.decisions, Stale(current.decisions, desired.decisions))
    && Pruned(before.transports, after.transports, Stale(current.transports, desired.transports))
    && Pruned(before.ipv4Paths, after.ipv4Paths, Stale(current.ipv4Paths, desired.ipv4Paths))
    && Pruned(before.ipv6Paths, after.ipv6Paths, Stale(current.ipv6Paths, desired.ipv6Paths))
  }

  ghost predicate FilledAll(before: Tables, after: Tables, desired: Tables) {
    && Filled(before.decisions, after.decisions, desired.decisions)
    && Filled(before.transports, after.transports, desired.transports)
    && Filled(before.ipv4Paths, after.ipv4Paths, desired.ipv4Paths)
    && Filled(before.ipv6Paths, after.ipv6Paths, desired.ipv6Paths)
  }

  lemma {:induction false} DeltaReachesDesired(before: Tables, pruned: Tables, after: Tables, desired: Tables, bank: nat)
    requires BankImage(desired, bank)
    requires PrunedAll(ReadBank(before, bank), before, pruned, desired) && FilledAll(pruned, after, desired)
    ensures ReadBank(after, bank) == desired
  {
    PrunedAndFilled(before.decisions, pruned.decisions, after.decisions, desired.decisions, bank);
    PrunedAndFilled(before.transports, pruned.transports, after.transports, desired.transports, bank);
    PrunedAndFilled(before.ipv4Paths, pruned.ipv4Paths, after.ipv4Paths, desired.ipv4Paths, bank);
    PrunedAndFilled(before.ipv6Paths, pruned.ipv6Paths, after.ipv6Paths, desired.ipv6Paths, bank);
  }

  lemma {:induction false} WithinJoins(a: Tables, b: Tables, c: Tables, bank: nat)
    requires Within(a, b, bank) && Within(b, c, bank)
    ensures Within(a, c, bank)
  {
  }

  /** What a completed removal pass and a completed write pass counted. */
  ghost function StaleCount(current: Tables, desired: Tables): nat {
    |Stale(current.decisions, desired.decisions)| + |Stale(current.transports, desired.transports)|
    + |Stale(current.ipv4Paths, desired.ipv4Paths)| + |Stale(current.ipv6Paths, desired.ipv6Paths)|
  }
  ghost function MissingCount(current: Tables, desired: Tables): nat {
    |Missing(current.decisions, desired.decisions)| + |Missing(current.transports, desired.transports)|
    + |Missing(current.ipv4Paths, desired.ipv4Paths)| + |Missing(current.ipv6Paths, desired.ipv6Paths)|
  }
  ghost function ChangedCount(current: Tables, desired: Tables): nat {
    |Changed(current.decisions, desired.decisions)| + |Changed(current.transports, desired.transports)|
    + |Changed(current.ipv4Paths, desired.ipv4Paths)| + |Changed(current.ipv6Paths, desired.ipv6Paths)|
  }
  ghost function SameCount(current: Tables, desired: Tables): nat {
    |Same(current.decisions, desired.decisions)| + |Same(current.transports, desired.transports)|
    + |Same(current.ipv4Paths, desired.ipv4Paths)| + |Same(current.ipv6Paths, desired.ipv6Paths)|
  }

  lemma {:induction false} StaleParts(current: Tables, desired: Tables)
    ensures StaleCount(current, desired) ==
      |Stale(current.decisions, desired.decisions)| + |Stale(current.transports, desired.transports)|
      + |Stale(current.ipv4Paths, desired.ipv4Paths)| + |Stale(current.ipv6Paths, desired.ipv6Paths)|
  {
  }

  lemma {:induction false} FillParts(current: Tables, desired: Tables)
    ensures MissingCount(current, desired) ==
      |Missing(current.decisions, desired.decisions)| + |Missing(current.transports, desired.transports)|
      + |Missing(current.ipv4Paths, desired.ipv4Paths)| + |Missing(current.ipv6Paths, desired.ipv6Paths)|
    ensures ChangedCount(current, desired) ==
      |Changed(current.decisions, desired.decisions)| + |Changed(current.transports, desired.transports)|
      + |Changed(current.ipv4Paths, desired.ipv4Paths)| + |Changed(current.ipv6Paths, desired.ipv6Paths)|
    ensures SameCount(current, desired) ==
      |Same(current.decisions, desired.decisions)| + |Same(current.transports, desired.transports)|
      + |Same(current.ipv4Paths, desired.ipv4Paths)| + |Same(current.ipv6Paths, desired.ipv6Paths)|
  {
  }

  /** The writes that turn one bank into another. */
  ghost function Differences(current: Tables, desired: Tables): nat {
    StaleCount(current, desired) + MissingCount(current, desired) + ChangedCount(current, desired)
  }

  /** Conservation over all four tables. */
  lemma {:induction false} CountsAddUp(current: Tables, desired: Tables)
    ensures MissingCount(current, desired) + ChangedCount(current, desired) + SameCount(current, desired) == desired.Size()
    ensures StaleCount(current, desired) + ChangedCount(current, desired) + SameCount(current, desired) == current.Size()
  {
    DeltaCounts(current.decisions, desired.decisions);
    DeltaCounts(current.transports, desired.transports);
    DeltaCounts(current.ipv4Paths, desired.ipv4Paths);
    DeltaCounts(current.ipv6Paths, desired.ipv6Paths);
  }

  /** The four pinned tables. */
  class PinnedMaps {
    var decisions: Entries
    var transports: Entries
    var ipv4Paths: Entries
    var ipv6Paths: Entries

    function View(): Tables
      reads this
    {
      Tables(decisions, transports, ipv4Paths, ipv6Paths)
    }

    constructor (tables: Tables)
      ensures View() == tables
    {
      decisions, transports, ipv4Paths, ipv6Paths := tables.decisions, tables.transports, tables.ipv4Paths, tables.ipv6Paths;
    }

    /** The removal pass over all four tables. */
    method PruneBank(bank: nat, current: Tables, desired: Tables, budget: nat) returns (left: nat, removed: nat, ok: bool)
      requires BankImage(current, bank)
      modifies this
      ensures Within(old(View()), View(), bank)
      ensures ok <==> StaleCount(current, desired) <= budget
      ensures ok ==> PrunedAll(current, old(View()), View(), desired) && removed == StaleCount(current, desired) && left == budget - removed
    {
      hide Pruned, SameElsewhere, Stale, StaleCount;
      ghost var before := View();
      SameIsWithin(before, bank);
      StaleParts(current, desired);
      var n1, n2, n3, n4;
      removed, n1, n2, n3, n4 := 0, 0, 0, 0, 0;
      decisions, left, n1, ok := Prune(decisions, current.decisions, desired.decisions, bank, budget);
      assert Within(before, View(), bank);
      if !ok { return; }
      transports, left, n2, ok := Prune(transports, current.transports, desired.transports, bank, left);
      assert Within(before, View(), bank);
      if !ok { return; }
      ipv4Paths, left, n3, ok := Prune(ipv4Paths, current.ipv4Paths, desired.ipv4Paths, bank, left);
      assert Within(before, View(), bank);
      if !ok { return; }
      ipv6Paths, left, n4, ok := Prune(ipv6Paths, current.ipv6Paths, desired.ipv6Paths, bank, left);
      removed := n1 + n2 + n3 + n4;
    }

    /** The write pass over all four tables. */
    method FillBank(bank: nat, current: Tables, desired: Tables, budget: nat)
      returns (inserted: nat, updated: nat, retained: nat, ok: bool)
      requires BankImage(desired, bank) && Agrees(current, View(), desired)
      modifies this
      ensures Within(old(View()), View(), bank)
      ensures ok <==> MissingCount(current, desired) + ChangedCount(current, desired) <= budget
      ensures ok ==>
        && FilledAll(old(View()), View(), desired)
        && inserted == MissingCount(current, desired) && updated == ChangedCount(current, desired) && retained == SameCount(current, desired)
    {
      hide Filled, SameElsewhere, Missing, Changed, Same, MissingCount, ChangedCount, SameCount;
      ghost var before := View();
      SameIsWithin(before, bank);
      FillParts(current, desired);
      inserted, updated, retained := 0, 0, 0;
      var left, i1, u1, r1; var i2, u2, r2; var i3, u3, r3; var i4, u4, r4;
      decisions, left, i1, u1, r1, ok := Fill(decisions, current.decisions, desired.decisions, bank, budget);
      assert Within(before, View(), bank);
      if !ok { return; }
      transports, left, i2, u2, r2, ok := Fill(transports, current.transports, desired.transports, bank, left);
      assert Within(before, View(), bank);
      if !ok { return; }
      ipv4Paths, left, i3, u3, r3, ok := Fill(ipv4Paths, current.ipv4Paths, desired.ipv4Paths, bank, left);
      assert Within(before, View(), bank);
      if !ok { return; }
      ipv6Paths, left, i4, u4, r4, ok := Fill(ipv6Paths, current.ipv6Paths, desired.ipv6Paths, bank, left);
      inserted, updated, retained := i1 + i2 + i3 + i4, u1 + u2 + u3 + u4, r1 + r2 + r3 + r4;
    }

    /** Brings one bank to `desired`: all removals, then all writes. It succeeds exactly when
        the kernel accepts as many writes as entries differ; wherever a refused write stops
        it, no entry of another bank has changed. */
    method ReconcileBank(bank: nat, desired: Tables, budget: nat) returns (stats: Option<Stats>)
      requires BankImage(desired, bank)
      modifies this
      ensures Within(old(View()), View(), bank)
      ensures stats.Some? <==> Differences(old(ReadBank(View(), bank)), desired) <= budget
      ensures stats.Some? ==>
        && ReadBank(View(), bank) == desired
        && stats.value.inserted + stats.value.updated + stats.value.retained == desired.Size()
        && stats.value.removed + stats.value.updated + stats.value.retained == old(ReadBank(View(), bank)).Size()
    {
      hide Pruned, Filled, SameElsewhere, MissingCount, ChangedCount, SameCount, StaleCount, PrunedAll, FilledAll, Agrees, Tables.Size;
      var current := ReadBank(View(), bank);
      ghost var before := View();
      stats := None;
      var left, removed, ok := PruneBank(bank, current, desired, budget);
      if !ok { return; }
      ghost var pruned := View();
      PruningAgrees(before, pruned, desired, bank);
      var inserted, updated, retained;
      inserted, updated, retained, ok := FillBank(bank, current, desired, left);
      WithinJoins(before, pruned, View(), bank);
      if !ok { return; }
      DeltaReachesDesired(before, pruned, View(), desired, bank);
      CountsAddUp(current, desired);
      stats := Some(Stats(inserted, updated, removed, retained));
    }
  }

  /** The entries a write pass compares against are still in place. */
  ghost predicate AgreesOn(current: Entries, entries: Entries, desired: Entries) {
    forall k :: k in desired && k in current ==> k in entries && entries[k] == current[k]
  }

  ghost predicate Agrees(current: Tables, tables: Tables, desired: Tables) {
    && AgreesOn(current.decisions, tables.decisions, desired.decisions)
    && AgreesOn(current.transports, tables.transports, desired.transports)
    && AgreesOn(current.ipv4Paths, tables.ipv4Paths, desired.ipv4Paths)
    && AgreesOn(current.ipv6Paths, tables.ipv6Paths, desired.ipv6Paths)
  }

  lemma {:induction false} PruningAgrees(before: Tables, pruned: Tables, desired: Tables, bank: nat)
    requires PrunedAll(ReadBank(before, bank), before, pruned, desired)
    ensures Agrees(ReadBank(before, bank), pruned, desired)
  {
  }

  lemma {:induction false} SameIsWithin(tables: Tables, bank: nat)
    ensures Within(tables, tables, bank)
    ensures SameElsewhere(tables.decisions, tables.decisions, bank) && SameElsewhere(tables.transports, tables.transports, bank)
    ensures SameElsewhere(tables.ipv4Paths, tables.ipv4Paths, bank) && SameElsewhere(tables.ipv6Paths, tables.ipv6Paths, bank)
  {
  }
}
