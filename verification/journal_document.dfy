/** The durable journal document: what `persist` writes and what `open` accepts. */
module JournalDocument {
  import opened Results
  import opened Attachments
  import opened JournalModel

  const REQUIRED_RETIREMENT_SCHEMA := 5
  const TOKEN_SCHEMA := 4
  const UID_DOCUMENT_SCHEMA := 3
  const UNBOUND_SCHEMA := 2

  datatype Document = Document(schema: nat, provider: Provider, records: seq<Record>)

  /** The oldest schema that can carry the image. */
  function DocumentSchema(image: Image): nat {
    if image.required then REQUIRED_RETIREMENT_SCHEMA
    else if exists k :: k in image.table && image.table[k].token.Some? then TOKEN_SCHEMA
    else if exists k :: k in image.table && image.table[k].spec.workloadUid.Some? then UID_DOCUMENT_SCHEMA
    else UNBOUND_SCHEMA
  }

  /** The document `persist` writes: every record, in key order. */
  ghost function Encode(site: Site, image: Image): Document {
    var keys := SortedKeys(image.table.Keys);
    Document(DocumentSchema(image), site.provider,
             seq(|keys|, i requires 0 <= i < |keys| => image.table[keys[i]]))
  }

  function TableOf(records: seq<Record>): Table {
    if records == [] then map[]
    else
      var last := records[|records| - 1];
      TableOf(records[..|records| - 1])[last.spec.key := last]
  }

  /** Checks that concern one record. */
  predicate RecordAccepted(site: Site, schema: nat, record: Record) {
    && (record.token.Some? ==>
          schema in {TOKEN_SCHEMA, REQUIRED_RETIREMENT_SCHEMA} && record.spec.workloadUid.Some? && record.token.value != 0)
    && (schema == UNBOUND_SCHEMA ==> record.spec.workloadUid.None?)
    && ValidSpec(record.spec)
    && record.hostInterface == site.hostName(record.spec.key)
    && ValidLease(site.provider, record.lease)
  }

  /** Checks that relate an earlier record to a later one. */
  predicate PairAccepted(a: Record, b: Record) {
    && KeyLess(a.spec.key, b.spec.key)
    && a.hostInterface != b.hostInterface
    && a.lease.ipv4 != b.lease.ipv4
    && a.lease.ipv6 != b.lease.ipv6
    && (a.token.Some? ==> a.token != b.token)
  }

  predicate RecordsAccepted(site: Site, schema: nat, records: seq<Record>) {
    && (forall i :: 0 <= i < |records| ==> RecordAccepted(site, schema, records[i]))
    && (forall i, j :: 0 <= i < j < |records| ==> PairAccepted(records[i], records[j]))
  }

  predicate KnownSchema(schema: nat) {
    schema in {REQUIRED_RETIREMENT_SCHEMA, TOKEN_SCHEMA, UID_DOCUMENT_SCHEMA, UNBOUND_SCHEMA}
  }

  /** What opening a document yields; None when it is refused. */
  function Load(site: Site, document: Document): Option<Image> {
    if KnownSchema(document.schema) && document.provider == site.provider
       && RecordsAccepted(site, document.schema, document.records)
    then Some(Image(TableOf(document.records), document.schema == REQUIRED_RETIREMENT_SCHEMA))
    else None
  }

  /** The validation loop: one pass, remembering the last key and what is taken so far. */
  method ValidateDocument(site: Site, schema: nat, records: seq<Record>) returns (r: Result<Table, Error>)
    ensures r.Ok? <==> KnownSchema(schema) && RecordsAccepted(site, schema, records)
    ensures r.Ok? ==> r.value == TableOf(records)
  {
    hide ValidSpec, ValidLease, KeyLess, RecordsAccepted;
    if !KnownSchema(schema) { return Err(IncompatibleSchema); }
    assert RecordsAccepted(site, schema, records[..0]) by { NoneAccepted(site, schema, records[..0]); }
    var attachments: Table := map[];
    var interfaces: set<string>, used4: set<nat>, used6: set<nat>, tokens: set<Token> := {}, {}, {}, {};
    var previous: Option<Key> := None;
    for n := 0 to |records|
      invariant RecordsAccepted(site, schema, records[..n])
      invariant attachments == TableOf(records[..n])
      invariant interfaces == set i | 0 <= i < n :: records[i].hostInterface
      invariant used4 == set i | 0 <= i < n :: records[i].lease.ipv4
      invariant used6 == set i | 0 <= i < n :: records[i].lease.ipv6
      invariant tokens == set i | 0 <= i < n && records[i].token.Some? :: records[i].token.value
      invariant if n == 0 then previous == None else previous == Some(records[n - 1].spec.key)
    {
      var record := records[n];
      Refusals(site, schema, records, n);
      assert records[..n + 1][..n] == records[..n];
      if record.token.Some? && (schema !in {TOKEN_SCHEMA, REQUIRED_RETIREMENT_SCHEMA} || record.spec.workloadUid.None?
                                || record.token.value == 0 || record.token.value in tokens) {
        if schema in {TOKEN_SCHEMA, REQUIRED_RETIREMENT_SCHEMA} && record.spec.workloadUid.Some? && record.token.value != 0 {
          var i :| 0 <= i < n && records[i].token.Some? && records[i].token.value == record.token.value;
          assert !PairAccepted(records[i], records[n]);
        }
        return Err(Invalid);
      }
      if schema == UNBOUND_SCHEMA && record.spec.workloadUid.Some? { return Err(Invalid); }
      if !ValidSpec(record.spec) || record.hostInterface != site.hostName(record.spec.key) { return Err(Invalid); }
      if previous.Some? && !KeyLess(previous.value, record.spec.key) {
        assert !PairAccepted(records[n - 1], records[n]);
        return Err(Invalid);
      }
      if record.hostInterface in interfaces {
        var i :| 0 <= i < n && records[i].hostInterface == record.hostInterface;
        assert !PairAccepted(records[i], records[n]);
        return Err(Conflict);
      }
      if !ValidLease(site.provider, record.lease) { return Err(Conflict); }
      if record.lease.ipv4 in used4 {
        var i :| 0 <= i < n && records[i].lease.ipv4 == record.lease.ipv4;
        assert !PairAccepted(records[i], records[n]);
        return Err(Ipam(DuplicateLease));
      }
      if record.lease.ipv6 in used6 {
        var i :| 0 <= i < n && records[i].lease.ipv6 == record.lease.ipv6;
        assert !PairAccepted(records[i], records[n]);
        return Err(Ipam(DuplicateLease));
      }
      ExtendAccepted(site, schema, records, n);
      interfaces := interfaces + {record.hostInterface};
      used4, used6 := used4 + {record.lease.ipv4}, used6 + {record.lease.ipv6};
      if record.token.Some? { tokens := tokens + {record.token.value}; }
      previous := Some(record.spec.key);
      attachments := attachments[record.spec.key := record];
    }
    assert records[..|records|] == records;
    return Ok(attachments);
  }

  lemma {:induction false} NoneAccepted(site: Site, schema: nat, records: seq<Record>)
    requires records == []
    ensures RecordsAccepted(site, schema, records)
  {
  }

  /** One refused record or pair refuses the document. */
  lemma {:induction false} Refusals(site: Site, schema: nat, records: seq<Record>, n: nat)
    requires n < |records|
    ensures !RecordAccepted(site, schema, records[n]) ==> !RecordsAccepted(site, schema, records)
    ensures forall i :: 0 <= i < n && !PairAccepted(records[i], records[n]) ==> !RecordsAccepted(site, schema, records)
  {
    hide RecordAccepted, PairAccepted;
  }

  /** The last-key comparison suffices: earlier keys are smaller by transitivity. */
  lemma {:induction false} ExtendAccepted(site: Site, schema: nat, records: seq<Record>, n: nat)
    requires n < |records| && RecordsAccepted(site, schema, records[..n])
    requires RecordAccepted(site, schema, records[n])
    requires n > 0 ==> KeyLess(records[n - 1].spec.key, records[n].spec.key)
    requires forall i :: 0 <= i < n ==>
      && records[i].hostInterface != records[n].hostInterface
      && records[i].lease.ipv4 != records[n].lease.ipv4
      && records[i].lease.ipv6 != records[n].lease.ipv6
      && (records[i].token.Some? ==> records[i].token != records[n].token)
    ensures RecordsAccepted(site, schema, records[..n + 1])
  {
    hide KeyLess, RecordAccepted;
    var grown := records[..n + 1];
    forall i, j | 0 <= i < j < |grown| ensures PairAccepted(grown[i], grown[j]) {
      if j < n {
        assert PairAccepted(records[..n][i], records[..n][j]);
      } else if i < n - 1 {
        assert PairAccepted(records[..n][i], records[..n][n - 1]);
        KeyLessTransitive(records[i].spec.key, records[n - 1].spec.key, records[n].spec.key);
      }
    }
    forall i | 0 <= i < |grown| ensures RecordAccepted(site, schema, grown[i]) {
      if i < n { assert grown[i] == records[..n][i]; }
    }
  }

  lemma {:induction false} TableOfDistinct(records: seq<Record>)
    requires forall i, j :: 0 <= i < j < |records| ==> records[i].spec.key != records[j].spec.key
    ensures forall i :: 0 <= i < |records| ==> records[i].spec.key in TableOf(records) && TableOf(records)[records[i].spec.key] == records[i]
    ensures forall k :: k in TableOf(records) ==> exists i :: 0 <= i < |records| && records[i].spec.key == k
  {
    if records != [] {
      var n := |records| - 1;
      var front := records[..n];
      TableOfDistinct(front);
      forall i | 0 <= i < |records| ensures records[i].spec.key in TableOf(records) && TableOf(records)[records[i].spec.key] == records[i] {
        if i < n { assert front[i] == records[i]; }
      }
      forall k | k in TableOf(records) ensures exists i :: 0 <= i < |records| && records[i].spec.key == k {
        if k in TableOf(front) {
          var i :| 0 <= i < |front| && front[i].spec.key == k;
          assert records[i].spec.key == k;
        } else {
          assert records[n].spec.key == k;
        }
      }
    }
  }

  lemma {:induction false} EncodedRecord(site: Site, image: Image, key: Key)
    requires ValidTable(site, image.table) && key in image.table
    ensures RecordAccepted(site, DocumentSchema(image), image.table[key])
    ensures image.table[key].spec.key == key
  {
    assert ValidRecord(site, key, image.table[key]);
  }

  lemma {:induction false} EncodedPair(site: Site, table: Table, a: Key, b: Key)
    requires ValidTable(site, table) && a in table && b in table && KeyLess(a, b)
    ensures a != b && PairAccepted(table[a], table[b])
  {
    KeyLessDistinct(a, b);
    assert ValidRecord(site, a, table[a]) && ValidRecord(site, b, table[b]);
  }

  lemma {:induction false} EncodedDocument(site: Site, image: Image)
    requires ValidTable(site, image.table)
    ensures RecordsAccepted(site, DocumentSchema(image), Encode(site, image).records)
    ensures TableOf(Encode(site, image).records) == image.table
  {
    var keys, records := SortedKeys(image.table.Keys), Encode(site, image).records;
    forall i | 0 <= i < |keys|
      ensures records[i].spec.key == keys[i] && RecordAccepted(site, DocumentSchema(image), records[i])
    {
      EncodedRecord(site, image, keys[i]);
    }
    forall i, j | 0 <= i < j < |records| ensures keys[i] != keys[j] && PairAccepted(records[i], records[j]) {
      EncodedPair(site, image.table, keys[i], keys[j]);
    }
    TableOfValues(image.table, keys, records);
  }

  lemma {:induction false} TableOfValues(table: Table, keys: seq<Key>, records: seq<Record>)
    requires |keys| == |records|
    requires forall k :: k in table <==> k in keys
    requires forall i :: 0 <= i < |keys| ==> keys[i] in table && records[i] == table[keys[i]] && records[i].spec.key == keys[i]
    requires forall i, j :: 0 <= i < j < |keys| ==> keys[i] != keys[j]
    ensures TableOf(records) == table
  {
    TableOfDistinct(records);
    var loaded := TableOf(records);
    forall k | k in table ensures k in loaded {
      var i :| 0 <= i < |keys| && keys[i] == k;
      assert records[i].spec.key in loaded;
    }
    forall k | k in loaded ensures k in table && loaded[k] == table[k] {
      var i :| 0 <= i < |records| && records[i].spec.key == k;
      assert loaded[records[i].spec.key] == records[i];
    }
    assert loaded == table;
  }

  /** Opening what `persist` wrote returns exactly the table and the retirement requirement. */
  lemma {:induction false} LoadEncode(site: Site, image: Image)
    requires ValidTable(site, image.table)
    ensures Load(site, Encode(site, image)) == Some(image)
  {
    EncodedDocument(site, image);
  }
}
