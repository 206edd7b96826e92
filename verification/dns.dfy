/** The DNS observer's wire format: encoding a query, reading a compressed name
    (section 4.1.4 of RFC 1035), and following CNAMEs through a response. */
module DnsWire {
  import opened Results

  type Byte = b: nat | b < 256

  /** A dotted name as its bytes. */
  type Name = seq<Byte>

  const DOT: Byte := 46
  const MAX_DEPTH := 16
  const MAX_QUERY := 512
  const MAX_ANSWERS := 128
  const U32_MAX := 0xFFFF_FFFF

  /** A byte as a number. */
  function At(message: seq<Byte>, offset: nat): nat
    requires offset < |message|
  {
    message[offset]
  }

  predicate Ascii(bytes: seq<Byte>) { forall b :: b in bytes ==> b < 128 }

  function LowerByte(b: Byte): Byte { if 65 <= b <= 90 then b + 32 else b }

  function Lower(bytes: seq<Byte>): (r: seq<Byte>)
    ensures |r| == |bytes|
  {
    seq(|bytes|, i requires 0 <= i < |bytes| => LowerByte(bytes[i]))
  }

  /** The pieces between dots; never empty. */
  function Split(name: Name): (labels: seq<Name>)
    ensures |labels| > 0
  {
    if name == [] then [[]]
    else
      var rest := Split(name[1..]);
      if name[0] == DOT then [[]] + rest else [[name[0]] + rest[0]] + rest[1..]
  }

  function Join(labels: seq<Name>): Name {
    if labels == [] then [] else if |labels| == 1 then labels[0] else labels[0] + [DOT] + Join(labels[1..])
  }

  function U16(value: nat): seq<Byte>
    requires value < 65536
  {
    [value / 256, value % 256]
  }

  predicate EncodableLabels(labels: seq<Name>) {
    forall l :: l in labels ==> 0 < |l| <= 63
  }

  /** Length-prefixed labels. */
  function EncodeLabels(labels: seq<Name>): seq<Byte>
    requires EncodableLabels(labels)
  {
    if labels == [] then [] else [|labels[0]|] + labels[0] + EncodeLabels(labels[1..])
  }

  function Header(id: nat): seq<Byte>
    requires id < 65536
  {
    U16(id) + U16(0x0100) + U16(1) + [0, 0, 0, 0, 0, 0]
  }

  function QueryFor(labels: seq<Name>, queryType: nat, id: nat): seq<Byte>
    requires queryType < 65536 && id < 65536 && EncodableLabels(labels)
  {
    Header(id) + EncodeLabels(labels) + [0] + U16(queryType) + U16(1)
  }

  method EncodeQuery(name: Name, queryType: nat, id: nat) returns (query: Option<seq<Byte>>)
    requires queryType < 65536 && id < 65536
    ensures query.Some? <==> EncodableLabels(Split(name)) && |QueryFor(Split(name), queryType, id)| <= MAX_QUERY
    ensures query.Some? ==> query.value == QueryFor(Split(name), queryType, id)
  {
    hide Header, U16, Split;
    var labels := Split(name);
    var message := Header(id);
    var i := 0;
    while i < |labels|
      invariant i <= |labels|
      invariant EncodableLabels(labels[..i])
      invariant message == Header(id) + EncodeLabels(labels[..i])
    {
      if labels[i] == [] || |labels[i]| > 63 {
        assert labels[i] in labels;
        return None;
      }
      assert labels[..i + 1] == labels[..i] + [labels[i]];
      EncodeAppends(labels[..i], labels[i]);
      message := message + [|labels[i]|] + labels[i];
      i := i + 1;
    }
    assert labels[..i] == labels;
    message := message + [0] + U16(queryType) + U16(1);
    query := if |message| > MAX_QUERY then None else Some(message);
  }

  lemma {:induction false} EncodeAppends(labels: seq<Name>, piece: Name)
    requires EncodableLabels(labels) && 0 < |piece| <= 63
    ensures EncodableLabels(labels + [piece])
    ensures EncodeLabels(labels + [piece]) == EncodeLabels(labels) + [|piece|] + piece
    decreases |labels|
  {
    if labels == [] {
      assert labels + [piece] == [piece];
      assert EncodeLabels([piece]) == [|piece|] + piece + EncodeLabels([piece][1..]);
    } else {
      EncodeAppends(labels[1..], piece);
      assert (labels + [piece])[1..] == labels[1..] + [piece];
    }
  }

  /** The labels of a name and the offset just after it in the message. */
  datatype Walked = Walked(labels: seq<Name>, end: nat)

  /** What stands at one offset of a name. */
  datatype Element = Bad | End | Pointer(target: nat) | Piece(bytes: Name, next: nat)

  function ElementAt(message: seq<Byte>, offset: nat): Element {
    if offset >= |message| then Bad
    else
      var length := At(message, offset);
      if length >= 192 then
        if offset + 1 >= |message| then Bad
        else
          var target := (length - 192) * 256 + At(message, offset + 1);
          if target >= |message| then Bad else Pointer(target)
      else if length >= 64 then Bad
      else if length == 0 then End
      else if offset + 1 + length > |message| || !Ascii(message[offset + 1..offset + 1 + length]) then Bad
      else Piece(message[offset + 1..offset + 1 + length], offset + 1 + length)
  }

  lemma {:induction false} ElementInRange(message: seq<Byte>, offset: nat)
    ensures var e := ElementAt(message, offset); !e.Bad? ==> offset < |message| && (e.Piece? ==> offset < e.next <= |message|)
  {
    hide Ascii;
  }

  /** A name is labels up to a zero byte, or labels up to a pointer to the rest of it. At
      most MAX_DEPTH pointers; after the first one the end no longer moves. */
  function Walk(message: seq<Byte>, offset: nat, jumps: nat): Option<Walked>
    requires jumps <= MAX_DEPTH
    decreases MAX_DEPTH - jumps, |message| - offset
  {
    ElementInRange(message, offset);
    match ElementAt(message, offset)
    case Bad => None
    case End => Some(Walked([], offset + 1))
    case Pointer(target) =>
      if jumps + 1 > MAX_DEPTH then None
      else
        var rest := Walk(message, target, jumps + 1);
        if rest.None? then None else Some(Walked(rest.value.labels, offset + 2))
    case Piece(bytes, next) =>
      var rest := Walk(message, next, jumps);
      if rest.None? then None else Some(Walked([bytes] + rest.value.labels, rest.value.end))
  }

  /** A spare pointer never changes what is read. */
  lemma {:induction false} SparePointer(message: seq<Byte>, offset: nat, jumps: nat)
    requires jumps < MAX_DEPTH && Walk(message, offset, jumps + 1).Some?
    ensures Walk(message, offset, jumps) == Walk(message, offset, jumps + 1)
    decreases MAX_DEPTH - jumps, |message| - offset
  {
    hide ElementAt;
    ElementInRange(message, offset);
    match ElementAt(message, offset)
    case Pointer(target) => SparePointer(message, target, jumps + 1);
    case Piece(_, next) => SparePointer(message, next, jumps);
    case _ =>
  }

  /** Compression changes no name: what reads through a pointer is the name at its target. */
  lemma {:induction false} PointerMeansTarget(message: seq<Byte>, offset: nat)
    requires ElementAt(message, offset).Pointer? && Walk(message, offset, 0).Some?
    ensures var target := Walk(message, ElementAt(message, offset).target, 0);
      target.Some? && Walk(message, offset, 0) == Some(Walked(target.value.labels, offset + 2))
  {
    hide ElementAt;
    SparePointer(message, ElementAt(message, offset).target, 0);
  }

  function NameOf(walked: Option<Walked>): Option<(Name, nat)> {
    if walked.None? || Join(walked.value.labels) == [] then None
    else Some((Lower(Join(walked.value.labels)), walked.value.end))
  }

  /** What the loop still has to read, seen from the labels already collected. */
  function Resume(labels: seq<Name>, consumed: Option<nat>, rest: Option<Walked>): Option<Walked> {
    if rest.None? then None
    else Some(Walked(labels + rest.value.labels, if consumed.Some? then consumed.value else rest.value.end))
  }

  /** Every element read leaves the whole name what it was. */
  lemma {:induction false} ResumeOn(message: seq<Byte>, offset: nat, jumps: nat, labels: seq<Name>, consumed: Option<nat>)
    requires jumps <= MAX_DEPTH
    ensures var whole := Resume(labels, consumed, Walk(message, offset, jumps));
      match ElementAt(message, offset)
      case Bad => whole == None
      case End => whole == Some(Walked(labels, if consumed.Some? then consumed.value else offset + 1))
      case Pointer(target) =>
        whole == if jumps + 1 > MAX_DEPTH then None
                 else Resume(labels, if consumed.Some? then consumed else Some(offset + 2), Walk(message, target, jumps + 1))
      case Piece(bytes, next) => whole == Resume(labels + [bytes], consumed, Walk(message, next, jumps))
  {
    hide ElementAt;
    match ElementAt(message, offset)
    case Piece(bytes, next) =>
      var rest := Walk(message, next, jumps);
      if rest.Some? { assert labels + ([bytes] + rest.value.labels) == labels + [bytes] + rest.value.labels; }
    case End => assert labels + [] == labels;
    case _ =>
  }

  lemma {:induction false} ResumeStart(whole: Option<Walked>)
    ensures Resume([], None, whole) == whole
  {
    if whole.Some? { assert [] + whole.value.labels == whole.value.labels; }
  }

  /** Reads a possibly compressed name: every read is in range, and the loop ends because
      each pass uses up a pointer or moves forward. */
  method ReadName(message: seq<Byte>, start: nat) returns (name: Option<(Name, nat)>)
    ensures name == NameOf(Walk(message, start, 0))
  {
    hide Walk, Resume, Ascii, Join, Lower;
    var labels: seq<Name> := [];
    var offset: nat := start;
    var consumed: Option<nat> := None;
    var jumps: nat := 0;
    ResumeStart(Walk(message, start, 0));
    while true
      invariant jumps <= MAX_DEPTH
      invariant Walk(message, start, 0) == Resume(labels, consumed, Walk(message, offset, jumps))
      decreases MAX_DEPTH - jumps, |message| - offset
    {
      ResumeOn(message, offset, jumps, labels, consumed);
      if offset >= |message| { return None; }
      var length := At(message, offset);
      if length >= 192 {
        if offset + 1 >= |message| { return None; }
        var pointer := (length - 192) * 256 + At(message, offset + 1);
        consumed := if consumed.Some? then consumed else Some(offset + 2);
        if jumps + 1 > MAX_DEPTH || pointer >= |message| { return None; }
        offset, jumps := pointer, jumps + 1;
        continue;
      }
      if length >= 64 { return None; }
      offset := offset + 1;
      if length == 0 {
        var end := if consumed.Some? then consumed.value else offset;
        if Join(labels) == [] { return None; }
        return Some((Lower(Join(labels)), end));
      }
      var end := offset + length;
      if end > |message| { return None; }
      var piece := message[offset..end];
      if !Ascii(piece) { return None; }
      labels := labels + [piece];
      offset := end;
    }
  }

  lemma {:induction false} JoinInvertsSplit(name: Name)
    ensures Join(Split(name)) == name
    decreases |name|
  {
    if name != [] {
      JoinInvertsSplit(name[1..]);
      var rest := Split(name[1..]);
      if name[0] == DOT {
        assert ([[]] + rest)[1..] == rest;
        assert name == [DOT] + name[1..];
      } else {
        var first := [name[0]] + rest[0];
        var all := [first] + rest[1..];
        assert all[1..] == rest[1..] && |all| == |rest|;
        assert name == [name[0]] + name[1..];
        if |rest| > 1 { assert first + [DOT] + Join(rest[1..]) == [name[0]] + (rest[0] + [DOT] + Join(rest[1..])); }
      }
    }
  }

  lemma {:induction false} AsciiJoin(a: seq<Byte>, b: seq<Byte>)
    ensures Ascii(a + b) <==> Ascii(a) && Ascii(b)
  {
    forall x ensures x in a + b <==> x in a || x in b {}
  }

  predicate AllAscii(labels: seq<Name>) { forall l :: l in labels ==> Ascii(l) }

  lemma {:induction false} AllAsciiJoin(a: seq<Name>, b: seq<Name>)
    ensures AllAscii(a + b) <==> AllAscii(a) && AllAscii(b)
  {
    forall x ensures x in a + b <==> x in a || x in b {}
  }

  lemma {:induction false} AllAsciiOne(l: Name)
    ensures AllAscii([l]) <==> Ascii(l)
  {
    assert l in [l];
  }

  lemma {:induction false} AsciiLabels(name: Name)
    ensures Ascii(name) <==> AllAscii(Split(name))
    decreases |name|
  {
    hide Ascii, AllAscii;
    if name == [] {
      AllAsciiOne([]);
    } else {
      AsciiLabels(name[1..]);
      var rest := Split(name[1..]);
      assert name == [name[0]] + name[1..];
      AsciiJoin([name[0]], name[1..]);
      if name[0] == DOT {
        AllAsciiJoin([[]], rest);
        AllAsciiOne([]);
        SmallAscii();
      } else {
        assert rest == [rest[0]] + rest[1..];
        AllAsciiJoin([rest[0]], rest[1..]);
        AllAsciiJoin([[name[0]] + rest[0]], rest[1..]);
        AllAsciiOne(rest[0]);
        AllAsciiOne([name[0]] + rest[0]);
        AsciiJoin([name[0]], rest[0]);
      }
    }
  }

  lemma {:induction false} SmallAscii()
    ensures Ascii([]) && Ascii([DOT])
  {
  }

  /** One step of reading where a piece was written. */
  lemma {:induction false} WalkOne(before: seq<Byte>, piece: Name, rest: seq<Byte>)
    requires 0 < |piece| <= 63
    ensures var message := before + [|piece|] + piece + rest;
      var later := Walk(message, |before| + 1 + |piece|, 0);
      Walk(message, |before|, 0) ==
        if Ascii(piece) && later.Some? then Some(Walked([piece] + later.value.labels, later.value.end)) else None
  {
    hide Ascii;
    var message := before + [|piece|] + piece + rest;
    assert message[|before|] == |piece|;
    assert message[|before| + 1..|before| + 1 + |piece|] == piece;
    assert ElementAt(message, |before|) == if Ascii(piece) then Piece(piece, |before| + 1 + |piece|) else Bad;
  }

  lemma {:induction false} WalkEnds(before: seq<Byte>, after: seq<Byte>)
    ensures Walk(before + [0] + after, |before|, 0) == Some(Walked([], |before| + 1))
  {
    var message := before + [0] + after;
    assert message[|before|] == 0;
  }

  lemma {:induction false} Regroup(before: seq<Byte>, a: seq<Byte>, b: seq<Byte>, c: seq<Byte>, z: seq<Byte>, after: seq<Byte>)
    ensures before + (a + b + c) + z + after == before + a + b + (c + z + after)
    ensures before + (a + b + c) + z + after == (before + a + b) + c + z + after
  {
  }

  /** Reading where labels were written gives them back, if all are ASCII, and fails otherwise. */
  lemma {:induction false} WalkReadsLabels(before: seq<Byte>, labels: seq<Name>, after: seq<Byte>)
    requires EncodableLabels(labels)
    ensures Walk(before + EncodeLabels(labels) + [0] + after, |before|, 0) ==
      if AllAscii(labels) then Some(Walked(labels, |before| + |EncodeLabels(labels)| + 1)) else None
    decreases |labels|
  {
    hide Walk, Ascii;
    if labels == [] {
      WalkEnds(before, after);
      assert before + [] + [0] + after == before + [0] + after;
    } else {
      hide AllAscii;
      var first, rest := labels[0], labels[1..];
      assert labels == [first] + rest;
      var further := before + [|first|] + first;
      WalkReadsLabels(further, rest, after);
      WalkOne(before, first, EncodeLabels(rest) + [0] + after);
      Regroup(before, [|first|], first, EncodeLabels(rest), [0], after);
      AllAsciiJoin([first], rest);
      AllAsciiOne(first);
    }
  }

  /** For every name that encodes, reading the question back yields the name in lower case
      when it is ASCII, and fails when it is not: exact for lower-case ASCII names. */
  lemma {:induction false} ReadInvertsEncode(name: Name, queryType: nat, id: nat)
    requires queryType < 65536 && id < 65536 && EncodableLabels(Split(name))
    ensures var query := QueryFor(Split(name), queryType, id);
      NameOf(Walk(query, 12, 0)) == if Ascii(name) then Some((Lower(name), |query| - 4)) else None
  {
    hide Walk, Ascii, AllAscii, EncodeLabels, Split, Join, Lower;
    var tail := U16(queryType) + U16(1);
    assert QueryFor(Split(name), queryType, id) == Header(id) + EncodeLabels(Split(name)) + [0] + tail;
    WalkReadsLabels(Header(id), Split(name), tail);
    AsciiLabels(name);
    JoinInvertsSplit(name);
    NameIsNotEmpty(name);
  }

  /** A lower-case name is read back unchanged. */
  lemma {:induction false} LowerCaseRoundTrip(name: Name, queryType: nat, id: nat)
    requires queryType < 65536 && id < 65536 && EncodableLabels(Split(name))
    requires forall b :: b in name ==> b < 128 && !(65 <= b <= 90)
    ensures var query := QueryFor(Split(name), queryType, id); NameOf(Walk(query, 12, 0)) == Some((name, |query| - 4))
  {
    hide Walk, Split, EncodeLabels;
    ReadInvertsEncode(name, queryType, id);
    assert Lower(name) == name by {
      forall i | 0 <= i < |name| ensures LowerByte(name[i]) == name[i] { assert name[i] in name; }
    }
  }

  lemma {:induction false} NameIsNotEmpty(name: Name)
    requires EncodableLabels(Split(name))
    ensures name != []
  {
    assert Split([]) == [[]] && [] in Split([]);
  }

  /** A record's owner, CNAME target or address, and time to live. */
  datatype Answers = Answers(cnames: map<Name, Alias>, addresses: seq<Address>)

  datatype Alias = Alias(target: Name, ttl: nat)

  datatype Address = Address(owner: Name, address: seq<Byte>, ttl: nat)

  function ReadU16(message: seq<Byte>, offset: nat): nat
    requires offset + 2 <= |message|
  {
    At(message, offset) * 256 + At(message, offset + 1)
  }

  function ReadU32(message: seq<Byte>, offset: nat): nat
    requires offset + 4 <= |message|
  {
    ReadU16(message, offset) * 65536 + ReadU16(message, offset + 2)
  }

  /** One resource record added to what came before it, and where the next one starts. */
  function ReadRecord(message: seq<Byte>, offset: nat, queryType: nat, soFar: Answers): Option<(Answers, nat)> {
    var owner := NameOf(Walk(message, offset, 0));
    if owner.None? || owner.value.1 + 10 > |message| then None
    else
      var at := owner.value.1;
      var kind, class_ := ReadU16(message, at), ReadU16(message, at + 2);
      var ttl, length := ReadU32(message, at + 4), ReadU16(message, at + 8);
      var data, end := at + 10, at + 10 + length;
      if end > |message| then None
      else if class_ == 1 && kind == 5 then
        var target := NameOf(Walk(message, data, 0));
        if target.None? || owner.value.0 in soFar.cnames then None
        else Some((soFar.(cnames := soFar.cnames[owner.value.0 := Alias(target.value.0, ttl)]), end))
      else if class_ == 1 && kind == queryType && ((kind == 1 && length == 4) || (kind == 28 && length == 16)) then
        Some((soFar.(addresses := soFar.addresses + [Address(owner.value.0, message[data..end], ttl)]), end))
      else Some((soFar, end))
  }

  function ReadRecords(message: seq<Byte>, offset: nat, count: nat, queryType: nat, soFar: Answers): Option<Answers>
    decreases count
  {
    if count == 0 then Some(soFar)
    else
      var next := ReadRecord(message, offset, queryType, soFar);
      if next.None? then None else ReadRecords(message, next.value.1, count - 1, queryType, next.value.0)
  }

  /** Reads one resource record. */
  method NextRecord(message: seq<Byte>, offset: nat, queryType: nat, soFar: Answers) returns (next: Option<(Answers, nat)>)
    ensures next == ReadRecord(message, offset, queryType, soFar)
  {
    hide Walk;
    var owner := ReadName(message, offset);
    if owner.None? || owner.value.1 + 10 > |message| { return None; }
    var at := owner.value.1;
    var kind, class_ := ReadU16(message, at), ReadU16(message, at + 2);
    var ttl, length := ReadU32(message, at + 4), ReadU16(message, at + 8);
    var data, end := at + 10, at + 10 + length;
    if end > |message| { return None; }
    if class_ == 1 && kind == 5 {
      var target := ReadName(message, data);
      if target.None? || owner.value.0 in soFar.cnames { return None; }
      return Some((soFar.(cnames := soFar.cnames[owner.value.0 := Alias(target.value.0, ttl)]), end));
    }
    if class_ == 1 && kind == queryType && ((kind == 1 && length == 4) || (kind == 28 && length == 16)) {
      return Some((soFar.(addresses := soFar.addresses + [Address(owner.value.0, message[data..end], ttl)]), end));
    }
    return Some((soFar, end));
  }

  /** Each name's CNAME target follows it. */
  predicate Linked(cnames: map<Name, Alias>, chain: seq<Name>) {
    forall i :: 0 <= i < |chain| - 1 ==> chain[i] in cnames && cnames[chain[i]].target == chain[i + 1]
  }

  predicate NoRepeats(chain: seq<Name>) {
    forall i, j :: 0 <= i < j < |chain| ==> chain[i] != chain[j]
  }

  /** The chain from a query: it follows the records, repeats nothing and ends at a name
      without a CNAME, within the depth bound. */
  predicate Chain(cnames: map<Name, Alias>, query: Name, chain: seq<Name>) {
    && 0 < |chain| <= MAX_DEPTH + 1 && chain[0] == query
    && Linked(cnames, chain) && NoRepeats(chain)
    && chain[|chain| - 1] !in cnames
  }

  /** The smallest time to live on the chain's links. */
  function ChainTtl(cnames: map<Name, Alias>, chain: seq<Name>): (ttl: nat)
    requires Linked(cnames, chain)
    ensures forall i :: 0 <= i < |chain| - 1 ==> ttl <= cnames[chain[i]].ttl
    decreases |chain|
  {
    if |chain| <= 1 then U32_MAX
    else
      var last := |chain| - 2;
      var earlier := chain[..|chain| - 1];
      assert forall i :: 0 <= i < |earlier| ==> earlier[i] == chain[i];
      var before := ChainTtl(cnames, earlier);
      assert forall i :: 0 <= i < last ==> before <= cnames[earlier[i]].ttl;
      if cnames[chain[last]].ttl < before then cnames[chain[last]].ttl else before
  }

  /** Two walks from the same name agree as far as both go. */
  lemma {:induction false} WalksAgree(cnames: map<Name, Alias>, a: seq<Name>, b: seq<Name>, i: nat)
    requires Linked(cnames, a) && Linked(cnames, b) && i < |a| && i < |b| && a[0] == b[0]
    ensures a[i] == b[i]
  {
    if i > 0 { WalksAgree(cnames, a, b, i - 1); }
  }

  /** A walk that would revisit a name, or is too long already, is part of no chain. */
  lemma {:induction false} NoChainFrom(cnames: map<Name, Alias>, query: Name, walk: seq<Name>)
    requires 0 < |walk| && walk[0] == query && Linked(cnames, walk) && walk[|walk| - 1] in cnames
    requires cnames[walk[|walk| - 1]].target in walk || |walk| > MAX_DEPTH
    ensures !exists chain :: Chain(cnames, query, chain)
  {
    forall chain ensures !Chain(cnames, query, chain) {
      if Chain(cnames, query, chain) {
        var k := |walk| - 1;
        if |chain| <= k {
          WalksAgree(cnames, walk, chain, |chain| - 1);
        } else {
          WalksAgree(cnames, walk, chain, k);
          if |chain| > k + 1 {
            var next := cnames[walk[k]].target;
            assert chain[k + 1] == next;
            if next in walk {
              var i :| 0 <= i < |walk| && walk[i] == next;
              WalksAgree(cnames, walk, chain, i);
            }
          }
        }
      }
    }
  }

  /** Follows the CNAMEs from the query; fails exactly when there is no chain. */
  method FollowChain(cnames: map<Name, Alias>, query: Name) returns (chain: Option<seq<Name>>, ttl: nat)
    ensures chain.Some? <==> exists c :: Chain(cnames, query, c)
    ensures chain.Some? ==> Chain(cnames, query, chain.value) && ttl == ChainTtl(cnames, chain.value)
  {
    var walk := [query];
    var canonical := query;
    var seen := {query};
    ttl := U32_MAX;
    var steps := 0;
    while steps < MAX_DEPTH && canonical in cnames
      invariant steps <= MAX_DEPTH && |walk| == steps + 1
      invariant walk[0] == query && walk[|walk| - 1] == canonical
      invariant Linked(cnames, walk) && NoRepeats(walk) && ttl == ChainTtl(cnames, walk)
      invariant forall n :: n in seen <==> n in walk
    {
      var next := cnames[canonical];
      if next.target in seen {
        NoChainFrom(cnames, query, walk);
        return None, ttl;
      }
      ttl := if next.ttl < ttl then next.ttl else ttl;
      assert (walk + [next.target])[..|walk|] == walk;
      canonical, walk, seen := next.target, walk + [next.target], seen + {next.target};
      steps := steps + 1;
    }
    if canonical in cnames {
      NoChainFrom(cnames, query, walk);
      return None, ttl;
    }
    assert Chain(cnames, query, walk);
    chain := Some(walk);
  }

  lemma {:induction false} ChainIsLinked(cnames: map<Name, Alias>, query: Name, chain: seq<Name>)
    requires Chain(cnames, query, chain)
    ensures chain != [] && Linked(cnames, chain)
  {
  }

  datatype Answer = Answer(address: seq<Byte>, ttl: nat)

  datatype Parsed = Parsed(chain: seq<Name>, answers: seq<Answer>)

  /** The addresses of one owner, each with its time to live capped by the chain's. */
  function Select(addresses: seq<Address>, owner: Name, cap: nat): seq<Answer> {
    if addresses == [] then []
    else
      var rest := Select(addresses[1..], owner, cap);
      if addresses[0].owner == owner
      then [Answer(addresses[0].address, if addresses[0].ttl < cap then addresses[0].ttl else cap)] + rest
      else rest
  }

  /** The header and question belong to the issued query; returns where answers start. */
  function ReadQuestion(message: seq<Byte>, query: Name, queryType: nat, id: nat): Option<nat> {
    if |message| < 12 || ReadU16(message, 0) != id then None
    else if message[2] < 128 || (message[2] % 128) / 8 != 0 || (message[3] % 16 != 0 && message[3] % 16 != 3) then None
    else if ReadU16(message, 4) != 1 || ReadU16(message, 6) > MAX_ANSWERS then None
    else
      var name := NameOf(Walk(message, 12, 0));
      if name.None? || name.value.1 + 4 > |message| then None
      else if name.value.0 != query || ReadU16(message, name.value.1) != queryType || ReadU16(message, name.value.1 + 2) != 1 then None
      else Some(name.value.1 + 4)
  }

  method CheckQuestion(message: seq<Byte>, query: Name, queryType: nat, id: nat) returns (start: Option<nat>)
    ensures start == ReadQuestion(message, query, queryType, id)
  {
    hide Walk;
    if |message| < 12 || ReadU16(message, 0) != id { return None; }
    if message[2] < 128 || (message[2] % 128) / 8 != 0 || (message[3] % 16 != 0 && message[3] % 16 != 3) { return None; }
    if ReadU16(message, 4) != 1 || ReadU16(message, 6) > MAX_ANSWERS { return None; }
    var name := ReadName(message, 12);
    if name.None? || name.value.1 + 4 > |message| { return None; }
    var offset := name.value.1;
    if name.value.0 != query || ReadU16(message, offset) != queryType || ReadU16(message, offset + 2) != 1 { return None; }
    start := Some(offset + 4);
  }

  lemma {:induction false} QuestionHasHeader(message: seq<Byte>, query: Name, queryType: nat, id: nat)
    ensures ReadQuestion(message, query, queryType, id).Some? ==> |message| >= 12
  {
    hide Walk;
  }

  /** Every record of a response to this query. */
  function AllAnswers(message: seq<Byte>, query: Name, queryType: nat, id: nat): Option<Answers> {
    var start := ReadQuestion(message, query, queryType, id);
    QuestionHasHeader(message, query, queryType, id);
    if start.None? then None else ReadRecords(message, start.value, ReadU16(message, 6), queryType, Answers(map[], []))
  }

  method ParseResponse(message: seq<Byte>, query: Name, queryType: nat, id: nat) returns (parsed: Option<Parsed>)
    ensures var all := AllAnswers(message, query, queryType, id);
      && (parsed.Some? <==> all.Some? && exists chain :: Chain(all.value.cnames, query, chain))
      && (parsed.Some? ==>
            && Chain(all.value.cnames, query, parsed.value.chain)
            && parsed.value.answers == Select(all.value.addresses, parsed.value.chain[|parsed.value.chain| - 1],
                                              ChainTtl(all.value.cnames, parsed.value.chain)))
  {
    hide ReadRecord, ReadQuestion, Chain, ChainTtl, Select;
    var start := CheckQuestion(message, query, queryType, id);
    QuestionHasHeader(message, query, queryType, id);
    if start.None? { return None; }
    var count := ReadU16(message, 6);
    var offset := start.value;
    var soFar := Answers(map[], []);
    ghost var all := ReadRecords(message, offset, count, queryType, soFar);
    for i := 0 to count
      invariant all == ReadRecords(message, offset, count - i, queryType, soFar)
    {
      var next := NextRecord(message, offset, queryType, soFar);
      if next.None? { return None; }
      soFar, offset := next.value.0, next.value.1;
    }
    assert all == Some(soFar);
    var chain, ttl := FollowChain(soFar.cnames, query);
    if chain.None? { return None; }
    ChainIsLinked(soFar.cnames, query, chain.value);
    var last := chain.value[|chain.value| - 1];
    parsed := Some(Parsed(chain.value, Select(soFar.addresses, last, ttl)));
  }

  /** Every reported answer is an address record of the chain's last name, and lives no
      longer than that record or any link of the chain. */
  lemma {:induction false} AnswersAreCapped(addresses: seq<Address>, cnames: map<Name, Alias>, chain: seq<Name>, k: nat)
    requires chain != [] && Linked(cnames, chain) && k < |Select(addresses, chain[|chain| - 1], ChainTtl(cnames, chain))|
    ensures var answer := Select(addresses, chain[|chain| - 1], ChainTtl(cnames, chain))[k];
      && (exists a :: a in addresses && a.owner == chain[|chain| - 1] && a.address == answer.address && answer.ttl <= a.ttl)
      && (forall i :: 0 <= i < |chain| - 1 ==> answer.ttl <= cnames[chain[i]].ttl)
  {
    SelectMember(addresses, chain[|chain| - 1], ChainTtl(cnames, chain), k);
  }

  lemma {:induction false} SelectMember(addresses: seq<Address>, owner: Name, cap: nat, k: nat)
    requires k < |Select(addresses, owner, cap)|
    ensures var answer := Select(addresses, owner, cap)[k];
      answer.ttl <= cap && exists a :: a in addresses && a.owner == owner && a.address == answer.address && answer.ttl <= a.ttl
    decreases |addresses|
  {
    var answer := Select(addresses, owner, cap)[k];
    if addresses[0].owner == owner && k == 0 {
      assert addresses[0] in addresses;
    } else {
      var j := if addresses[0].owner == owner then k - 1 else k;
      SelectMember(addresses[1..], owner, cap, j);
      var a :| a in addresses[1..] && a.owner == owner && a.address == answer.address && answer.ttl <= a.ttl;
      assert a in addresses;
    }
  }
}
