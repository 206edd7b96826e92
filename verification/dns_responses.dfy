/** Responses as a server writes them, and what the observer reads out of them. */
module DnsResponses {
  import opened Results
  import opened DnsWire

  /** Two bytes that point to `target` are read as the name that starts there. */
  lemma {:induction false} PointerReadsTarget(message: seq<Byte>, offset: nat, target: nat)
    requires target < 16384 && target < |message| && offset + 1 < |message|
    requires message[offset] == 192 + target / 256 && message[offset + 1] == target % 256
    ensures Walk(message, offset, 0) ==
      (var rest := Walk(message, target, 1); if rest.None? then None else Some(Walked(rest.value.labels, offset + 2)))
    ensures Walk(message, target, 1).Some? ==> Walk(message, target, 0) == Walk(message, target, 1)
  {
    assert ElementAt(message, offset) == Pointer(target);
    if Walk(message, target, 1).Some? { SparePointer(message, target, 0); }
  }

  /** The positions, in order, of the records of one owner. */
  predicate Positions(addresses: seq<Address>, owner: Name, at: seq<nat>) {
    && (forall i, j :: 0 <= i < j < |at| ==> at[i] < at[j])
    && (forall i :: 0 <= i < |at| ==> at[i] < |addresses|)
    && (forall p :: 0 <= p < |addresses| ==> (p in at <==> addresses[p].owner == owner))
  }

  predicate Selects(answer: Answer, record: Address, cap: nat) {
    answer.address == record.address && answer.ttl == if record.ttl < cap then record.ttl else cap
  }

  /** The answers are the addresses of the owner's records, all of them, each once and in order,
      and each lives as long as its record or the cap, whichever is shorter. */
  lemma {:induction false} SelectsAllOfOwner(addresses: seq<Address>, owner: Name, cap: nat, at: seq<nat>)
    requires Positions(addresses, owner, at)
    ensures |Select(addresses, owner, cap)| == |at|
    ensures forall i :: 0 <= i < |at| ==> at[i] < |addresses| && Selects(Select(addresses, owner, cap)[i], addresses[at[i]], cap)
    decreases |addresses|
  {
    hide Positions, Shifted;
    if at != [] { PositionInRange(addresses, owner, at, 0); }
    if addresses != [] {
      var later, rest := Shifted(addresses, owner, at), addresses[1..];
      ShiftedPositions(addresses, owner, at);
      ShiftedIs(addresses, owner, at);
      SelectsAllOfOwner(rest, owner, cap, later);
      var skip := Skip(addresses, owner);
      forall i | 0 <= i < |at|
        ensures at[i] < |addresses| && Selects(Select(addresses, owner, cap)[i], addresses[at[i]], cap)
      {
        PositionInRange(addresses, owner, at, i);
        if i >= skip {
          assert rest[later[i - skip]] == addresses[at[i]];
          assert Select(addresses, owner, cap)[i] == Select(rest, owner, cap)[i - skip];
        }
      }
    }
  }

  lemma {:induction false} PositionInRange(addresses: seq<Address>, owner: Name, at: seq<nat>, i: nat)
    requires Positions(addresses, owner, at) && i < |at|
    ensures at[i] < |addresses|
  {
  }

  /** The positions in the tail. */
  function Shifted(addresses: seq<Address>, owner: Name, at: seq<nat>): seq<nat>
    requires addresses != [] && Positions(addresses, owner, at)
  {
    FirstPosition(addresses, owner, at);
    var rest := if addresses[0].owner == owner then at[1..] else at;
    seq(|rest|, i requires 0 <= i < |rest| => assert rest[i] > 0; rest[i] - 1)
  }

  lemma {:induction false} FirstPosition(addresses: seq<Address>, owner: Name, at: seq<nat>)
    requires addresses != [] && Positions(addresses, owner, at)
    ensures addresses[0].owner == owner ==> at != [] && at[0] == 0
    ensures forall i :: (if addresses[0].owner == owner then 1 else 0) <= i < |at| ==> at[i] > 0
  {
    if addresses[0].owner == owner {
      assert 0 in at;
      var k :| 0 <= k < |at| && at[k] == 0;
      assert forall i :: 0 < i < |at| ==> at[0] < at[i];
    } else {
      forall i | 0 <= i < |at| ensures at[i] > 0 { assert at[i] in at; }
    }
  }

  function Skip(addresses: seq<Address>, owner: Name): nat
    requires addresses != []
  {
    if addresses[0].owner == owner then 1 else 0
  }

  lemma {:induction false} ShiftedIs(addresses: seq<Address>, owner: Name, at: seq<nat>)
    requires addresses != [] && Positions(addresses, owner, at)
    ensures var later, skip := Shifted(addresses, owner, at), Skip(addresses, owner);
      && |later| + skip == |at| && (forall i :: 0 <= i < |later| ==> later[i] < |addresses| - 1 && later[i] + 1 == at[i + skip])
      && (skip == 1 ==> at[0] == 0)
  {
    FirstPosition(addresses, owner, at);
    forall i | 0 <= i < |at| ensures at[i] < |addresses| { PositionInRange(addresses, owner, at, i); }
    hide Positions;
  }

  lemma {:induction false} ShiftedMember(addresses: seq<Address>, owner: Name, at: seq<nat>, p: nat)
    requires addresses != [] && Positions(addresses, owner, at) && p < |addresses| - 1
    ensures p in Shifted(addresses, owner, at) <==> addresses[1..][p].owner == owner
  {
    hide Shifted;
    ShiftedIs(addresses, owner, at);
    var later, skip := Shifted(addresses, owner, at), Skip(addresses, owner);
    assert addresses[1..][p] == addresses[p + 1];
    assert p + 1 in at <==> addresses[p + 1].owner == owner;
    hide Positions;
    if p + 1 in at {
      var k :| 0 <= k < |at| && at[k] == p + 1;
      assert later[k - skip] == p;
    }
    if p in later {
      var k :| 0 <= k < |later| && later[k] == p;
      assert at[k + skip] == p + 1;
    }
  }

  lemma {:induction false} ShiftedPositions(addresses: seq<Address>, owner: Name, at: seq<nat>)
    requires addresses != [] && Positions(addresses, owner, at)
    ensures Positions(addresses[1..], owner, Shifted(addresses, owner, at))
  {
    hide Shifted;
    ShiftedIs(addresses, owner, at);
    var later := Shifted(addresses, owner, at);
    forall p | 0 <= p < |addresses[1..]| ensures p in later <==> addresses[1..][p].owner == owner { ShiftedMember(addresses, owner, at, p); }
    var skip := Skip(addresses, owner);
    forall i, j | 0 <= i < j < |later| ensures later[i] < later[j] { assert at[i + skip] < at[j + skip]; }
  }

  /** The cap is the time to live of some link, or the largest there is. */
  lemma {:induction false} ChainTtlIsAttained(cnames: map<Name, Alias>, chain: seq<Name>)
    requires Linked(cnames, chain)
    ensures ChainTtl(cnames, chain) == U32_MAX || exists i :: 0 <= i < |chain| - 1 && ChainTtl(cnames, chain) == cnames[chain[i]].ttl
    ensures |chain| <= 1 ==> ChainTtl(cnames, chain) == U32_MAX
    decreases |chain|
  {
    if |chain| > 1 {
      var earlier := chain[..|chain| - 1];
      assert forall i :: 0 <= i < |earlier| ==> earlier[i] == chain[i];
      ChainTtlIsAttained(cnames, earlier);
      var before := ChainTtl(cnames, earlier);
      if before != U32_MAX {
        var i :| 0 <= i < |earlier| - 1 && before == cnames[earlier[i]].ttl;
        assert before == cnames[chain[i]].ttl;
      }
      assert cnames[chain[|chain| - 2]].ttl == cnames[chain[|chain| - 2]].ttl;
    }
  }

  function U32(value: nat): seq<Byte>
    requires value <= U32_MAX
  {
    U16(value / 65536) + U16(value % 65536)
  }

  /** A record as a server lists it. */
  datatype Resource =
    | Host(owner: seq<Name>, address: seq<Byte>, ttl: nat)
    | Cname(owner: seq<Name>, target: seq<Name>, ttl: nat)
    | Other(owner: seq<Name>, kind: nat, class_: nat, data: seq<Byte>, ttl: nat)

  function KindOf(r: Resource, queryType: nat): nat { if r.Host? then queryType else if r.Cname? then 5 else r.kind }

  function ClassOf(r: Resource): nat { if r.Other? then r.class_ else 1 }

  /** Data of this kind is an address of the family asked for. */
  predicate AddressData(kind: nat, data: seq<Byte>, queryType: nat) {
    kind == queryType && ((kind == 1 && |data| == 4) || (kind == 28 && |data| == 16))
  }

  /** Lower-case ASCII labels of a name that can be written. */
  predicate Plain(labels: seq<Name>) {
    EncodableLabels(labels) && AllAscii(labels) && Join(labels) != [] && Lower(Join(labels)) == Join(labels)
  }

  predicate Proper(r: Resource, queryType: nat) {
    && Plain(r.owner) && r.ttl <= U32_MAX
    && (r.Host? ==> AddressData(queryType, r.address, queryType))
    && (r.Cname? ==> Plain(r.target) && |EncodeLabels(r.target)| < 65535)
    && (r.Other? ==> r.kind < 65536 && r.class_ < 65536 && |r.data| < 65536 && !(r.class_ == 1 && (r.kind == 5 || AddressData(r.kind, r.data, queryType))))
  }

  function NameBytes(labels: seq<Name>): seq<Byte>
    requires Plain(labels)
  {
    EncodeLabels(labels) + [0]
  }

  function Data(r: Resource, queryType: nat): seq<Byte>
    requires Proper(r, queryType)
  {
    match r
    case Host(_, address, _) => address
    case Cname(_, target, _) => NameBytes(target)
    case Other(_, _, _, data, _) => data
  }

  function RecordBytes(r: Resource, queryType: nat): seq<Byte>
    requires Proper(r, queryType) && queryType < 65536
  {
    NameBytes(r.owner) + U16(KindOf(r, queryType)) + U16(ClassOf(r)) + U32(r.ttl) + U16(|Data(r, queryType)|) + Data(r, queryType)
  }

  function RecordsBytes(records: seq<Resource>, queryType: nat): seq<Byte>
    requires queryType < 65536 && forall r :: r in records ==> Proper(r, queryType)
  {
    if records == [] then [] else RecordBytes(records[0], queryType) + RecordsBytes(records[1..], queryType)
  }

  /** What the listed records say, in order. */
  function Listed(records: seq<Resource>, soFar: Answers): Answers {
    if records == [] then soFar
    else Listed(records[1..], Says(records[0], soFar))
  }

  function Says(r: Resource, soFar: Answers): Answers {
    match r
    case Host(owner, address, ttl) => soFar.(addresses := soFar.addresses + [Address(Join(owner), address, ttl)])
    case Cname(owner, target, ttl) => soFar.(cnames := soFar.cnames[Join(owner) := Alias(Join(target), ttl)])
    case Other(_, _, _, _, _) => soFar
  }

  /** No name is an alias twice. */
  predicate AliasesDiffer(records: seq<Resource>, cnames: map<Name, Alias>) {
    && (forall r :: r in records && r.Cname? ==> Join(r.owner) !in cnames)
    && (forall i, j :: 0 <= i < j < |records| && records[i].Cname? && records[j].Cname? ==> Join(records[i].owner) != Join(records[j].owner))
  }

  lemma {:induction false} ReadsPlain(before: seq<Byte>, labels: seq<Name>, after: seq<Byte>)
    requires Plain(labels)
    ensures NameOf(Walk(before + NameBytes(labels) + after, |before|, 0)) == Some((Join(labels), |before| + |NameBytes(labels)|))
  {
    hide Walk, EncodeLabels, Join, Lower, AllAscii;
    WalkReadsLabels(before, labels, after);
    assert before + NameBytes(labels) + after == before + EncodeLabels(labels) + [0] + after;
  }

  lemma {:induction false} ReadsU16(before: seq<Byte>, value: nat, after: seq<Byte>)
    requires value < 65536
    ensures ReadU16(before + U16(value) + after, |before|) == value
  {
    var message := before + U16(value) + after;
    assert message[|before|] == value / 256 && message[|before| + 1] == value % 256;
  }

  lemma {:induction false} ReadsU32(before: seq<Byte>, value: nat, after: seq<Byte>)
    requires value <= U32_MAX
    ensures ReadU32(before + U32(value) + after, |before|) == value
  {
    hide U16, ReadU16;
    var high, low := U16(value / 65536), U16(value % 65536);
    TwoBytes(value / 65536);
    TwoBytes(value % 65536);
    assert before + U32(value) + after == before + high + (low + after);
    assert before + U32(value) + after == (before + high) + low + after;
    ReadsU16(before, value / 65536, low + after);
    ReadsU16(before + high, value % 65536, after);
  }

  lemma {:induction false} TwoBytes(value: nat)
    requires value < 65536
    ensures |U16(value)| == 2
  {
  }

  lemma {:induction false} FourBytes(value: nat)
    requires value <= U32_MAX
    ensures |U32(value)| == 4
  {
  }

  /** The name of a written record and what follows it. */
  lemma {:induction false} ReadsOwner(before: seq<Byte>, r: Resource, after: seq<Byte>, queryType: nat)
    requires queryType in {1, 28} && Proper(r, queryType)
    ensures NameOf(Walk(before + RecordBytes(r, queryType) + after, |before|, 0)) == Some((Join(r.owner), |before| + |NameBytes(r.owner)|))
  {
    hide Walk, EncodeLabels, Join, Lower, AllAscii, U16, U32, NameBytes, NameOf, Plain, Data;
    DataFits(r, queryType);
    var tail := U16(KindOf(r, queryType)) + U16(ClassOf(r)) + U32(r.ttl) + U16(|Data(r, queryType)|) + Data(r, queryType) + after;
    assert before + RecordBytes(r, queryType) + after == before + NameBytes(r.owner) + tail;
    ReadsPlain(before, r.owner, tail);
  }

  /** Its four fixed fields, and the place of its data. */
  lemma {:induction false} ReadsFields(a: seq<Byte>, kind: nat, class_: nat, ttl: nat, data: seq<Byte>, after: seq<Byte>)
    requires kind < 65536 && class_ < 65536 && ttl <= U32_MAX && |data| < 65536
    ensures var m := a + (U16(kind) + U16(class_) + U32(ttl) + U16(|data|) + data) + after;
      && |a| + 10 + |data| <= |m|
      && ReadU16(m, |a|) == kind && ReadU16(m, |a| + 2) == class_ && ReadU32(m, |a| + 4) == ttl && ReadU16(m, |a| + 8) == |data|
      && m[|a| + 10..|a| + 10 + |data|] == data
  {
    hide U16, U32, ReadU16, ReadU32;
    TwoBytes(kind);
    TwoBytes(class_);
    TwoBytes(|data|);
    FourBytes(ttl);
    var m := a + (U16(kind) + U16(class_) + U32(ttl) + U16(|data|) + data) + after;
    assert m == a + U16(kind) + (U16(class_) + U32(ttl) + U16(|data|) + data + after);
    ReadsU16(a, kind, U16(class_) + U32(ttl) + U16(|data|) + data + after);
    assert m == (a + U16(kind)) + U16(class_) + (U32(ttl) + U16(|data|) + data + after);
    ReadsU16(a + U16(kind), class_, U32(ttl) + U16(|data|) + data + after);
    assert m == (a + U16(kind) + U16(class_)) + U32(ttl) + (U16(|data|) + data + after);
    ReadsU32(a + U16(kind) + U16(class_), ttl, U16(|data|) + data + after);
    assert m == (a + U16(kind) + U16(class_) + U32(ttl)) + U16(|data|) + (data + after);
    ReadsU16(a + U16(kind) + U16(class_) + U32(ttl), |data|, data + after);
  }

  /** A written record is read back: its owner, kind, time to live and data, and where it ends. */
  lemma {:induction false} ReadsRecord(before: seq<Byte>, r: Resource, after: seq<Byte>, queryType: nat, soFar: Answers)
    requires queryType in {1, 28} && Proper(r, queryType)
    ensures ReadRecord(before + RecordBytes(r, queryType) + after, |before|, queryType, soFar) ==
      if r.Cname? && Join(r.owner) in soFar.cnames then None else Some((Says(r, soFar), |before| + |RecordBytes(r, queryType)|))
  {
    hide Walk, EncodeLabels, Join, Lower, AllAscii, U16, U32, ReadU16, ReadU32, NameBytes, NameOf, Plain, Data, RecordBytes;
    var message, data := before + RecordBytes(r, queryType) + after, Data(r, queryType);
    DataFits(r, queryType);
    ReadsOwner(before, r, after, queryType);
    ReadsFields(before + NameBytes(r.owner), KindOf(r, queryType), ClassOf(r), r.ttl, data, after);
    RecordParts(before, r, after, queryType);
    if r.Cname? { ReadsTarget(before, r, after, queryType); } else { DataIsOwn(r, queryType); }
  }

  lemma {:induction false} RecordParts(before: seq<Byte>, r: Resource, after: seq<Byte>, queryType: nat)
    requires queryType in {1, 28} && Proper(r, queryType)
    ensures var data := Data(r, queryType); var a := before + NameBytes(r.owner);
      && |data| < 65536 && |RecordBytes(r, queryType)| == |NameBytes(r.owner)| + 10 + |data|
      && before + RecordBytes(r, queryType) + after
         == a + (U16(KindOf(r, queryType)) + U16(ClassOf(r)) + U32(r.ttl) + U16(|data|) + data) + after
  {
    hide EncodeLabels, Join, Lower, AllAscii, U16, U32, NameBytes, Plain, Data;
    DataFits(r, queryType);
    TwoBytes(KindOf(r, queryType));
    TwoBytes(ClassOf(r));
    TwoBytes(|Data(r, queryType)|);
    FourBytes(r.ttl);
  }

  lemma {:induction false} ReadsTarget(before: seq<Byte>, r: Resource, after: seq<Byte>, queryType: nat)
    requires queryType in {1, 28} && Proper(r, queryType) && r.Cname?
    ensures var message := before + RecordBytes(r, queryType) + after; var data := |before| + |NameBytes(r.owner)| + 10;
      NameOf(Walk(message, data, 0)) == Some((Join(r.target), data + |NameBytes(r.target)|))
  {
    hide Walk, EncodeLabels, Join, Lower, AllAscii, U16, U32, NameBytes, NameOf, Plain, Data;
    DataFits(r, queryType);
    DataIsName(r, queryType);
    TwoBytes(5);
    TwoBytes(1);
    TwoBytes(|Data(r, queryType)|);
    FourBytes(r.ttl);
    var e := before + NameBytes(r.owner) + U16(5) + U16(1) + U32(r.ttl) + U16(|Data(r, queryType)|);
    assert before + RecordBytes(r, queryType) + after == e + NameBytes(r.target) + after;
    ReadsPlain(e, r.target, after);
  }

  lemma {:induction false} DataFits(r: Resource, queryType: nat)
    requires Proper(r, queryType)
    ensures |Data(r, queryType)| < 65536 && Plain(r.owner) && (r.Cname? ==> Plain(r.target))
    ensures queryType < 65536 ==> KindOf(r, queryType) < 65536 && ClassOf(r) < 65536
  {
    hide EncodeLabels, Plain;
  }

  lemma {:induction false} DataIsName(r: Resource, queryType: nat)
    requires Proper(r, queryType) && r.Cname?
    ensures Data(r, queryType) == NameBytes(r.target)
  {
  }

  lemma {:induction false} DataIsOwn(r: Resource, queryType: nat)
    requires Proper(r, queryType) && !r.Cname?
    ensures r.Host? ==> Data(r, queryType) == r.address && AddressData(queryType, r.address, queryType)
    ensures r.Other? ==> Data(r, queryType) == r.data && !(r.class_ == 1 && (r.kind == 5 || AddressData(r.kind, r.data, queryType)))
  {
  }

  /** All written records are read back, in order, unless some name is an alias twice. */
  lemma {:induction false} ReadsRecords(before: seq<Byte>, records: seq<Resource>, after: seq<Byte>, queryType: nat, soFar: Answers)
    requires queryType in {1, 28} && (forall r :: r in records ==> Proper(r, queryType))
    ensures ReadRecords(before + RecordsBytes(records, queryType) + after, |before|, |records|, queryType, soFar) ==
      if AliasesDiffer(records, soFar.cnames) then Some(Listed(records, soFar)) else None
    decreases |records|
  {
    hide ReadRecord, RecordBytes, Proper, AliasesDiffer, Join;
    if records == [] {
      NoneDiffer(soFar.cnames);
    } else {
      var first, rest := records[0], records[1..];
      assert records == [first] + rest && first in records;
      var bytes, later := RecordBytes(first, queryType), RecordsBytes(rest, queryType);
      var message := before + RecordsBytes(records, queryType) + after;
      assert message == before + bytes + (later + after) && message == (before + bytes) + later + after;
      ReadsRecord(before, first, later + after, queryType, soFar);
      RestDiffers(records, soFar);
      ReadsRecords(before + bytes, rest, after, queryType, Says(first, soFar));
    }
  }

  lemma {:induction false} NoneDiffer(cnames: map<Name, Alias>)
    ensures AliasesDiffer([], cnames)
  {
  }

  lemma {:induction false} RestDiffers(records: seq<Resource>, soFar: Answers)
    requires records != []
    ensures AliasesDiffer(records, soFar.cnames) <==>
      (records[0].Cname? ==> Join(records[0].owner) !in soFar.cnames) && AliasesDiffer(records[1..], Says(records[0], soFar).cnames)
  {
    hide Join;
    var first, rest, cnames := records[0], records[1..], Says(records[0], soFar).cnames;
    assert forall i :: 0 <= i < |rest| ==> rest[i] == records[i + 1];
    assert forall n :: n in cnames <==> n in soFar.cnames || (first.Cname? && n == Join(first.owner));
    if AliasesDiffer(records, soFar.cnames) {
      assert first in records;
      forall r | r in rest && r.Cname? ensures Join(r.owner) !in cnames {
        var k :| 0 <= k < |rest| && rest[k] == r;
        assert records[k + 1] == r && r in records;
      }
    }
    if (first.Cname? ==> Join(first.owner) !in soFar.cnames) && AliasesDiffer(rest, cnames) {
      forall r | r in records && r.Cname? ensures Join(r.owner) !in soFar.cnames {
        if r != first { assert r in rest; }
      }
      forall i, j | 0 <= i < j < |records| && records[i].Cname? && records[j].Cname? ensures Join(records[i].owner) != Join(records[j].owner) {
        assert records[j] == rest[j - 1];
        if i > 0 { assert records[i] == rest[i - 1]; } else { assert rest[j - 1] in rest; }
      }
    }
  }

  /** The flag bits of a header: the response bit, the operation, the three and the four bits
      nobody looks at, and the outcome. */
  datatype Flags = Flags(response: bool, opcode: nat, low: nat, high: nat, outcome: nat) {
    predicate Fit() { opcode < 16 && low < 8 && high < 16 && outcome < 16 }

    /** The answer to a query, or that there is no such name. */
    predicate Answers() { response && opcode == 0 && outcome in {0, 3} }
  }

  function FlagBytes(f: Flags): (r: seq<Byte>)
    requires f.Fit()
    ensures |r| == 2
  {
    [(if f.response then 128 else 0) + f.opcode * 8 + f.low, f.high * 16 + f.outcome]
  }

  function MessageHeader(f: Flags, id: nat, questions: nat, count: nat): seq<Byte>
    requires f.Fit() && id < 65536 && questions < 65536 && count < 65536
  {
    U16(id) + FlagBytes(f) + U16(questions) + U16(count) + [0, 0, 0, 0]
  }

  /** A complete response: header, question, records. */
  function ResponseBytes(query: seq<Name>, queryType: nat, id: nat, f: Flags, records: seq<Resource>): seq<Byte>
    requires Plain(query) && queryType < 65536 && id < 65536 && f.Fit() && |records| < 65536
    requires forall r :: r in records ==> Proper(r, queryType)
  {
    MessageHeader(f, id, 1, |records|) + NameBytes(query) + U16(queryType) + U16(1) + RecordsBytes(records, queryType)
  }

  lemma {:induction false} HeaderReads(f: Flags, id: nat, questions: nat, count: nat, after: seq<Byte>)
    requires f.Fit() && id < 65536 && questions < 65536 && count < 65536
    ensures var header := MessageHeader(f, id, questions, count); var m := header + after;
      && |header| == 12
      && ReadU16(m, 0) == id && ReadU16(m, 4) == questions && ReadU16(m, 6) == count
      && (m[2] >= 128 <==> f.response) && (m[2] % 128) / 8 == f.opcode && m[3] % 16 == f.outcome
  {
    var m := MessageHeader(f, id, questions, count) + after;
    assert m[0] == id / 256 && m[1] == id % 256 && m[2] == FlagBytes(f)[0] && m[3] == FlagBytes(f)[1];
    assert m[4] == questions / 256 && m[5] == questions % 256 && m[6] == count / 256 && m[7] == count % 256;
  }

  /** A message with one question is taken up exactly if it has the query's identifier, the
      flags of an answer, one question that is the query's in name, type and class, and no
      more records than allowed; reading then goes on right after the question. */
  lemma {:induction false} QuestionExactly(f: Flags, id: nat, questions: nat, count: nat, asked: seq<Name>, kind: nat, class_: nat, after: seq<Byte>,
                                           query: Name, queryType: nat, wanted: nat)
    requires f.Fit() && id < 65536 && questions < 65536 && count < 65536 && Plain(asked) && kind < 65536 && class_ < 65536
    ensures var start := MessageHeader(f, id, questions, count) + NameBytes(asked) + U16(kind) + U16(class_);
      ReadQuestion(start + after, query, queryType, wanted) ==
        if id == wanted && f.Answers() && questions == 1 && count <= MAX_ANSWERS && Join(asked) == query && kind == queryType && class_ == 1
        then Some(|start|) else None
  {
    hide Walk, EncodeLabels, Join, Lower, AllAscii, U16, ReadU16, NameBytes, NameOf, Plain, MessageHeader, FlagBytes;
    var header := MessageHeader(f, id, questions, count);
    TwoBytes(kind); TwoBytes(class_);
    var message := header + NameBytes(asked) + U16(kind) + U16(class_) + after;
    HeaderReads(f, id, questions, count, NameBytes(asked) + U16(kind) + U16(class_) + after);
    assert message == header + (NameBytes(asked) + U16(kind) + U16(class_) + after);
    assert message == header + NameBytes(asked) + (U16(kind) + U16(class_) + after);
    ReadsPlain(header, asked, U16(kind) + U16(class_) + after);
    assert message == (header + NameBytes(asked)) + U16(kind) + (U16(class_) + after);
    ReadsU16(header + NameBytes(asked), kind, U16(class_) + after);
    assert message == (header + NameBytes(asked) + U16(kind)) + U16(class_) + after;
    ReadsU16(header + NameBytes(asked) + U16(kind), class_, after);
  }

  /** Round trip: out of a complete response to its query the observer reads exactly what its
      records say, in order, skipping records of other kinds, and refuses it whole exactly if
      some name is an alias twice. */
  lemma {:induction false} ResponseRoundTrip(query: seq<Name>, queryType: nat, id: nat, f: Flags, records: seq<Resource>)
    requires Plain(query) && queryType in {1, 28} && id < 65536 && f.Fit() && f.Answers() && |records| <= MAX_ANSWERS
    requires forall r :: r in records ==> Proper(r, queryType)
    ensures AllAnswers(ResponseBytes(query, queryType, id, f, records), Join(query), queryType, id) ==
      if AliasesDiffer(records, map[]) then Some(Listed(records, Answers(map[], []))) else None
  {
    hide ReadRecords, ReadQuestion, NameBytes, U16, Join, Plain, Proper, MessageHeader, ReadU16, AliasesDiffer;
    var start := MessageHeader(f, id, 1, |records|) + NameBytes(query) + U16(queryType) + U16(1);
    var bytes := RecordsBytes(records, queryType);
    assert ResponseBytes(query, queryType, id, f, records) == start + bytes == start + bytes + [];
    QuestionExactly(f, id, 1, |records|, query, queryType, 1, bytes, Join(query), queryType, id);
    HeaderReads(f, id, 1, |records|, NameBytes(query) + U16(queryType) + U16(1) + bytes);
    assert start + bytes == MessageHeader(f, id, 1, |records|) + (NameBytes(query) + U16(queryType) + U16(1) + bytes);
    ReadsRecords(start, records, [], queryType, Answers(map[], []));
  }

  lemma {:induction false} QueryHeader(id: nat)
    requires id < 65536
    ensures Header(id) == MessageHeader(Flags(false, 0, 1, 0, 0), id, 1, 0)
  {
    assert FlagBytes(Flags(false, 0, 1, 0, 0)) == [1, 0] == U16(0x0100) && U16(0) == [0, 0];
    hide U16, FlagBytes;
    var start := U16(id) + [1, 0] + U16(1);
    assert start + [0, 0, 0, 0, 0, 0] == start + [0, 0] + [0, 0, 0, 0];
  }

  /** A query is a message that asks one question, wants recursion and carries no record; sent
      back as it is, it answers no query. */
  lemma {:induction false} EchoIsRefused(labels: seq<Name>, queryType: nat, id: nat, query: Name, wantedType: nat, wanted: nat)
    requires Plain(labels) && queryType < 65536 && id < 65536
    ensures QueryFor(labels, queryType, id) == MessageHeader(Flags(false, 0, 1, 0, 0), id, 1, 0) + NameBytes(labels) + U16(queryType) + U16(1)
    ensures ReadQuestion(QueryFor(labels, queryType, id), query, wantedType, wanted) == None
  {
    hide Walk, EncodeLabels, Join, ReadQuestion, Header, MessageHeader, U16, Lower, AllAscii;
    QueryHeader(id);
    var header, name := Header(id), EncodeLabels(labels);
    assert header + name + [0] + U16(queryType) + U16(1) == header + NameBytes(labels) + U16(queryType) + U16(1);
    QuestionExactly(Flags(false, 0, 1, 0, 0), id, 1, 0, labels, queryType, 1, [], query, wantedType, wanted);
    assert QueryFor(labels, queryType, id) + [] == QueryFor(labels, queryType, id);
  }
}
