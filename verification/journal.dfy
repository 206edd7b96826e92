/** The attachment journal object: fields updated in place, one record rolled back on failure. */
module AttachmentJournals {
  import opened Results
  import opened Orders
  import opened Attachments
  import opened JournalModel
  import Documents = JournalDocument

  /** The keys a network's listing ranges over. */
  ghost function Past(table: Table, network: string, after: Option<Key>): set<Key> {
    set k | k in table && k.network == network && (after.None? || KeyLess(after.value, k))
  }

  function RangeFrom(table: Table, network: string, after: Option<Key>): set<Key> {
    var minimum := Key(network, "", "");
    if after.Some? && !KeyLess(after.value, minimum)
    then set k | k in table && KeyLess(after.value, k)
    else set k | k in table && !KeyLess(k, minimum)
  }

  /** The seek range holds exactly the wanted keys of the network, and nothing of an
      earlier network, for every cursor, including one of another network. */
  lemma {:induction false} RangeIsPast(table: Table, network: string, after: Option<Key>, k: Key)
    ensures k in Past(table, network, after) <==> k in RangeFrom(table, network, after) && k.network == network
    ensures k in RangeFrom(table, network, after) ==> !StringLess(k.network, network)
  {
    StringOrder();
    var minimum := Key(network, "", "");
    assert !KeyLess(k, minimum) <==> !StringLess(k.network, network);
    if after.Some? {
      if KeyLess(after.value, minimum) {
        if k.network == network && !KeyLess(after.value, k) { KeyOrder(); }
      } else {
        assert !StringLess(after.value.network, network);
      }
    }
  }

  lemma {:induction false} LeastKeyExists(keys: set<Key>)
    requires keys != {}
    ensures exists k :: k in keys && forall x :: x in keys ==> x == k || KeyLess(k, x)
  {
    KeyOrder();
    var k := Least(keys, KeyLess);
  }

  lemma {:induction false} LaterNetworks(least: Key, x: Key, network: string)
    requires !StringLess(least.network, network) && least.network != network
    requires x == least || KeyLess(least, x)
    ensures x.network != network
  {
    StringOrder();
  }

  /** Walks a seek range in key order, up to the first foreign network or the limit. */
  method TakePage(range: set<Key>, network: string, limit: nat) returns (page: seq<Key>)
    requires forall k :: k in range ==> !StringLess(k.network, network)
    ensures Ascending(page, KeyLess) && |page| <= limit
    ensures forall k :: k in page ==> k in range && k.network == network
    ensures forall i, k :: 0 <= i < |page| && k in range && k.network == network && k !in page ==> KeyLess(page[i], k)
    ensures |page| == limit || forall k :: k in range && k.network == network ==> k in page
  {
    hide KeyLess, StringLess;
    var rest := range;
    page := [];
    while rest != {} && |page| < limit
      invariant rest <= range
      invariant forall k :: k in page ==> k in range && k.network == network && k !in rest
      invariant forall k :: k in range ==> k in page || k in rest
      invariant Ascending(page, KeyLess)
      invariant forall i, k :: 0 <= i < |page| && k in rest ==> KeyLess(page[i], k)
      invariant |page| <= limit
      decreases rest
    {
      LeastKeyExists(rest);
      var k :| k in rest && forall x :: x in rest ==> x == k || KeyLess(k, x);
      if k.network != network {
        forall x | x in rest ensures x.network != network { LaterNetworks(k, x, network); }
        return;
      }
      page, rest := page + [k], rest - {k};
    }
  }

  /** An ascending page that is full, or misses nothing, and below all it misses, is the page of the sorted keys. */
  lemma {:induction false} PageIsPrefix(past: set<Key>, page: seq<Key>, limit: nat)
    requires Ascending(page, KeyLess) && |page| <= limit
    requires forall k :: k in page ==> k in past
    requires forall i, k :: 0 <= i < |page| && k in past && k !in page ==> KeyLess(page[i], k)
    requires |page| == limit || forall k :: k in past ==> k in page
    ensures var keys := SortedKeys(past);
      page == if |keys| <= limit then keys else keys[..limit]
  {
    hide KeyLess;
    KeyOrder();
    PageOfAscend(past, page, limit, KeyLess);
  }

  lemma {:induction false} PageRecords(table: Table, network: string, after: Option<Key>, limit: nat, page: seq<Key>)
    requires var keys := SortedKeys(Past(table, network, after));
      page == if |keys| <= limit then keys else keys[..limit]
    ensures forall i :: 0 <= i < |page| ==> page[i] in table
    ensures Listing(table, network, after, limit) == seq(|page|, i requires 0 <= i < |page| => table[page[i]])
  {
  }

  class AttachmentJournal {
    const site: Site
    var table: Table
    var instance: Option<nat>
    var revision: nat
    var hook: Option<nat>
    var required: bool
    /** The journal file, as a reader would recover it. */
    var file: Image

    ghost function View(): Journal
      reads this
    {
      Journal(table, instance, revision, hook, required)
    }

    constructor (site: Site, file: Image, newId: nat)
      ensures this.site == site && this.file == file && View() == OpenJournal(file, newId)
    {
      this.site, this.file := site, file;
      this.table, this.required := file.table, file.required;
      this.instance, this.revision, this.hook := Some(newId), 0, None;
    }

    /** Opens the journal file, None when there is none. A file that does not load, of another
        node's address blocks or with any unacceptable record, opens nothing. */
    static method Open(site: Site, document: Option<Documents.Document>, newId: nat) returns (journal: Option<AttachmentJournal>)
      ensures journal.Some? <==> document.None? || Documents.Load(site, document.value).Some?
      ensures journal.Some? ==>
        var image := if document.None? then Image(map[], false) else Documents.Load(site, document.value).value;
        && fresh(journal.value) && journal.value.site == site && journal.value.file == image
        && journal.value.View() == OpenJournal(image, newId)
    {
      hide Documents.RecordsAccepted;
      var image := Image(map[], false);
      if document.Some? {
        var d := document.value;
        if d.provider != site.provider { return None; }
        var loaded := Documents.ValidateDocument(site, d.schema, d.records);
        if loaded.Err? { return None; }
        image := Image(loaded.value, d.schema == Documents.REQUIRED_RETIREMENT_SCHEMA);
      }
      var opening := new AttachmentJournal(site, image, newId);
      journal := Some(opening);
    }

    method Persist(outcome: PersistOutcome) returns (ok: bool)
      modifies this`file
      ensures ok <==> outcome == Persisted
      ensures file == WriteImage(old(file), Image(table, required), outcome)
    {
      if outcome != FailedBeforeRename { file := Image(table, required); }
      ok := outcome == Persisted;
    }

    method Restore(key: Key, previous: Option<Record>)
      modifies this`table
      ensures table == Store(old(table), key, previous)
    {
      if previous.Some? { table := table[key := previous.value]; } else { table := table - {key}; }
    }

    method PersistChange(key: Key, previous: Option<Record>, attachment: Option<Record>, env: Env)
      returns (reply: Result<Option<Record>, Error>, revoked: Option<Token>)
      modifies this
      ensures Applied(View(), file, revoked, reply) == PersistMutation(old(View()), old(file), key, previous, attachment, env)
    {
      revoked := None;
      if revision == U64_MAX {
        Restore(key, previous);
        return Err(InvalidTransition), None;
      }
      if previous.Some? && previous.value.phase == Ready && hook.Some? {
        revoked := previous.value.token;
      }
      if revoked.Some? && env.hookFails {
        Restore(key, previous);
        instance := None;
        return Err(Retirement), revoked;
      }
      var ok := Persist(env.persist);
      if !ok {
        Restore(key, previous);
        instance := None;
        return Err(Io), revoked;
      }
      revision := revision + 1;
      if instance.None? { instance := Some(env.newId); }
      reply := Ok(attachment);
    }

    /** One transaction of the journal: validated, rolled back or made durable. */
    method ApplyRequest(schema: nat, op: Operation, env: Env)
      returns (reply: Result<Option<Record>, Error>, revoked: Option<Token>)
      requires ValidProvider(site.provider)
      modifies this
      ensures Applied(View(), file, revoked, reply) == Apply(site, old(View()), old(file), schema, op, env)
    {
      hide OperationEffect, LegacyBlocked;
      if required && hook.None? { return Err(InvalidTransition), None; }
      if schema !in {CURRENT_SCHEMA, UID_SCHEMA, LEGACY_SCHEMA} { return Err(IncompatibleSchema), None; }
      if schema != CURRENT_SCHEMA && LegacyBlocked(table, schema, op) { return Err(IncompatibleSchema), None; }
      var key := MutationKey(op);
      var previous := if key.Some? then Lookup(table, key.value) else None;
      var result := OperationEffect(site, table, op, schema, env.nonce);
      if result.Err? { return Err(result.error), None; }
      if key.Some? && Lookup(result.value.table, key.value) != previous {
        table := result.value.table;
        reply, revoked := PersistChange(key.value, previous, result.value.attachment, env);
        return;
      }
      return Ok(result.value.attachment), None;
    }

    method InstallHook(hook: nat, newId: nat) returns (registration: Option<nat>)
      modifies this`hook, this`instance
      ensures (View(), registration) == InstallRetirement(old(View()), hook, newId)
    {
      if this.hook.Some? || instance.None? { return None; }
      this.hook := Some(hook);
      instance := Some(newId);
      registration := Some(hook);
    }

    method InstallRequiredHook(hook: nat, newId: nat, outcome: PersistOutcome) returns (registration: Option<nat>)
      modifies this
      ensures Installed(View(), file, registration) == InstallRequired(old(View()), old(file), hook, newId, outcome)
    {
      registration := InstallHook(hook, newId);
      if registration.None? { return; }
      if !required {
        required := true;
        var ok := Persist(outcome);
        if !ok {
          instance := None;
          registration := None;
        }
      }
    }

    /** Listing by range seek: start at the network's least key or just past the cursor,
        walk in key order, stop at the first foreign network or at the limit. */
    method ListRecords(network: string, after: Option<Key>, limit: nat) returns (r: Result<seq<Record>, Error>)
      ensures r.Ok? <==> ValidListing(network, after, limit)
      ensures r.Ok? ==> r.value == Listing(table, network, after, limit)
      ensures r.Err? ==> r.error == Invalid
    {
      hide KeyLess, StringLess, RangeFrom, Past, ValidListing, SortedKeys, Listing;
      if !ValidListing(network, after, limit) { return Err(Invalid); }
      var range := RangeFrom(table, network, after);
      ghost var past := Past(table, network, after);
      forall k ensures (k in past <==> k in range && k.network == network) && (k in range ==> !StringLess(k.network, network)) {
        RangeIsPast(table, network, after, k);
      }
      var page := TakePage(range, network, limit);
      PageIsPrefix(past, page, limit);
      PageRecords(table, network, after, limit, page);
      var records := table;
      r := Ok(seq(|page|, i requires 0 <= i < |page| && page[i] in records => records[page[i]]));
      assert r.value == Listing(table, network, after, limit);
    }

    /** A listing as a transaction: refused where every other transaction would be. */
    method ListRequest(schema: nat, network: string, after: Option<Key>, limit: nat, env: Env) returns (r: Result<seq<Record>, Error>)
      requires ValidProvider(site.provider)
      ensures var a := Apply(site, View(), file, schema, List(network, after, limit), env);
        && a.journal == View() && a.disk == file && a.reply == (if r.Ok? then Ok(None) else Err(r.error))
      ensures r.Ok? ==> r.value == Listing(table, network, after, limit)
    {
      hide LegacyBlocked, ValidListing, Listing;
      if required && hook.None? { return Err(InvalidTransition); }
      if schema !in {CURRENT_SCHEMA, UID_SCHEMA, LEGACY_SCHEMA} { return Err(IncompatibleSchema); }
      if schema != CURRENT_SCHEMA && LegacyBlocked(table, schema, List(network, after, limit)) { return Err(IncompatibleSchema); }
      r := ListRecords(network, after, limit);
    }
  }
}
