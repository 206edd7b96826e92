/** Map generations, their durable transactions, the restart decision, and the bridge over
    generations that were admitted but never published. A state digest is represented by
    the image it commits to. */
module EncryptionGenerations {
  import opened Results
  import opened EncryptionMaps

  const BRIDGE_SCHEMA := 1

  /** One complete bank; `revisions` stands for the policy, service and egress revisions
      and the epoch count. */
  datatype Published = Published(generation: nat, revisions: nat, bank: nat, image: Tables)

  /** The shared config record; it carries entry counts, not a digest of the entries. */
  datatype Config = Config(generation: nat, revisions: nat, bank: nat, decisions: nat, transports: nat, paths: nat)

  function ConfigOf(p: Published): Config {
    Config(p.generation, p.revisions, p.bank, |p.image.decisions|, |p.image.transports|, |p.image.ipv4Paths| + |p.image.ipv6Paths|)
  }

  datatype TransactionPhase = Prepared | Staged | Committed | RolledBack

  datatype Transaction = Transaction(revision: nat, prior: Option<Published>, desired: Published, phase: TransactionPhase)

  predicate Verified(t: Transaction) {
    && t.revision != 0 && t.desired.generation != 0 && t.desired.bank < BANK_COUNT
    && BankImage(t.desired.image, t.desired.bank)
    && (t.prior.Some? ==> t.prior.value.bank != t.desired.bank && t.prior.value.generation < t.desired.generation)
  }

  /** The same intent, whatever phase each copy records. */
  predicate SameIntent(a: Transaction, b: Transaction) {
    a == b.(phase := a.phase)
  }

  datatype Action = Restage | Activate | CommitObserved | Reuse | RollbackComplete | Refuse

  /** The restart decision from durable intent, the active generation and the target bank
      (`None` when that bank is empty). */
  function Recover(t: Transaction, active: Option<Published>, target: Option<Tables>): Action {
    var exact := target == Some(t.desired.image);
    match t.phase
    case Prepared =>
      if active == t.prior then Restage
      else if active == Some(t.desired) && exact then CommitObserved else Refuse
    case Staged =>
      if active == t.prior && exact then Activate
      else if active == Some(t.desired) && exact then CommitObserved else Refuse
    case Committed => if active == Some(t.desired) && exact then Reuse else Refuse
    case RolledBack => if active == t.prior && target == None then RollbackComplete else Refuse
  }

  /** A generation the controller admitted for this node. */
  datatype Admitted = Admitted(controllerEpoch: nat, transaction: Transaction)

  predicate VerifiedAdmission(a: Admitted) {
    a.controllerEpoch != 0 && Verified(a.transaction) && a.transaction.phase == Prepared
  }

  /** Skipped transactions between the physical map and the last skipped admission. */
  datatype Bridge = Bridge(schema: nat, ancestry: seq<Transaction>, admitted: Admitted) {
    function Logical(): Published { admitted.transaction.desired }
  }

  function Cursor(physical: Published, ancestry: seq<Transaction>, i: nat): Published
    requires i <= |ancestry|
  {
    if i == 0 then physical else ancestry[i - 1].desired
  }

  /** Every link starts where the one before ended, from the physical map to the admission. */
  predicate Connects(b: Bridge, physical: Published) {
    && b.schema == BRIDGE_SCHEMA
    && VerifiedAdmission(b.admitted)
    && (forall i :: 0 <= i < |b.ancestry| ==> Verified(b.ancestry[i]) && b.ancestry[i].prior == Some(Cursor(physical, b.ancestry, i)))
    && b.admitted.transaction.prior == Some(Cursor(physical, b.ancestry, |b.ancestry|))
  }

  method VerifyAgainst(b: Bridge, physical: Published) returns (ok: bool)
    ensures ok <==> Connects(b, physical)
  {
    if b.schema != BRIDGE_SCHEMA || !VerifiedAdmission(b.admitted) { return false; }
    var cursor := physical;
    for i := 0 to |b.ancestry|
      invariant cursor == Cursor(physical, b.ancestry, i)
      invariant forall j :: 0 <= j < i ==> Verified(b.ancestry[j]) && b.ancestry[j].prior == Some(Cursor(physical, b.ancestry, j))
    {
      if !Verified(b.ancestry[i]) || b.ancestry[i].prior != Some(cursor) { return false; }
      cursor := b.ancestry[i].desired;
    }
    return b.admitted.transaction.prior == Some(cursor);
  }

  function FirstBridge(physical: Published, admitted: Admitted): Option<Bridge> {
    var b := Bridge(BRIDGE_SCHEMA, [], admitted);
    if Connects(b, physical) then Some(b) else None
  }

  function AdvancedBridge(b: Bridge, physical: Published, admitted: Admitted): Option<Bridge> {
    if !Connects(b, physical) || !VerifiedAdmission(admitted) || admitted.transaction.prior != Some(b.Logical()) then None
    else
      var next := Bridge(b.schema, b.ancestry + [b.admitted.transaction], admitted);
      if Connects(next, physical) then Some(next) else None
  }

  method First(physical: Published, admitted: Admitted) returns (bridge: Option<Bridge>)
    ensures bridge == FirstBridge(physical, admitted)
    ensures bridge.Some? <==> VerifiedAdmission(admitted) && admitted.transaction.prior == Some(physical)
  {
    var b := Bridge(BRIDGE_SCHEMA, [], admitted);
    var ok := VerifyAgainst(b, physical);
    bridge := if ok then Some(b) else None;
  }

  /** Advancing fails only on a broken bridge, a bad admission or a gap: never on the
      check of the bridge it has just built. */
  method Advance(b: Bridge, physical: Published, admitted: Admitted) returns (bridge: Option<Bridge>)
    ensures bridge == AdvancedBridge(b, physical, admitted)
    ensures bridge.Some? <==> Connects(b, physical) && VerifiedAdmission(admitted) && admitted.transaction.prior == Some(b.Logical())
  {
    var ok := VerifyAgainst(b, physical);
    if !ok || !VerifiedAdmission(admitted) || admitted.transaction.prior != Some(b.admitted.transaction.desired) {
      return None;
    }
    AdvanceConnects(b, physical, admitted);
    var next := Bridge(b.schema, b.ancestry + [b.admitted.transaction], admitted);
    ok := VerifyAgainst(next, physical);
    bridge := if ok then Some(next) else None;
  }

  lemma {:induction false} AdvanceConnects(b: Bridge, physical: Published, admitted: Admitted)
    requires Connects(b, physical) && VerifiedAdmission(admitted) && admitted.transaction.prior == Some(b.Logical())
    ensures Connects(Bridge(b.schema, b.ancestry + [b.admitted.transaction], admitted), physical)
  {
    var longer := b.ancestry + [b.admitted.transaction];
    forall i | 0 <= i < |longer| ensures Verified(longer[i]) && longer[i].prior == Some(Cursor(physical, longer, i)) {
      if i < |b.ancestry| { assert Cursor(physical, longer, i) == Cursor(physical, b.ancestry, i); }
    }
  }

  /** The bridge that a sequence of `First` and then `Advance` calls builds. */
  function Build(physical: Published, admissions: seq<Admitted>): Option<Bridge>
    requires admissions != []
    decreases |admissions|
  {
    var n := |admissions| - 1;
    if n == 0 then FirstBridge(physical, admissions[0])
    else
      var earlier := Build(physical, admissions[..n]);
      if earlier.None? then None else AdvancedBridge(earlier.value, physical, admissions[n])
  }

  function Transactions(admissions: seq<Admitted>): (ts: seq<Transaction>)
    ensures |ts| == |admissions|
  {
    seq(|admissions|, i requires 0 <= i < |admissions| => admissions[i].transaction)
  }

  /** Admissions that follow one another from the physical generation. */
  predicate Chain(physical: Published, admissions: seq<Admitted>) {
    forall i :: 0 <= i < |admissions| ==>
      VerifiedAdmission(admissions[i]) && admissions[i].transaction.prior == Some(Cursor(physical, Transactions(admissions), i))
  }

  /** What any sequence of calls builds: a bridge exists exactly for contiguous verified
      admissions, and it is the ordered list of every skipped transaction. */
  lemma {:induction false} BridgeIsSkippedChain(physical: Published, admissions: seq<Admitted>)
    requires admissions != []
    ensures Build(physical, admissions).Some? <==> Chain(physical, admissions)
    ensures Build(physical, admissions).Some? ==>
      var b := Build(physical, admissions).value;
      && b.ancestry + [b.admitted.transaction] == Transactions(admissions)
      && b.admitted == admissions[|admissions| - 1]
      && Connects(b, physical)
    decreases |admissions|
  {
    hide VerifiedAdmission, Connects, Chain, AdvancedBridge;
    var n := |admissions| - 1;
    if n == 0 {
      FirstIsChain(physical, admissions);
    } else {
      BridgeIsSkippedChain(physical, admissions[..n]);
      ChainExtends(physical, admissions);
      if Build(physical, admissions[..n]).Some? {
        AdvanceIsChain(physical, admissions, Build(physical, admissions[..n]).value);
      }
    }
  }

  lemma {:induction false} FirstIsChain(physical: Published, admissions: seq<Admitted>)
    requires |admissions| == 1
    ensures var b := Bridge(BRIDGE_SCHEMA, [], admissions[0]);
      && (Connects(b, physical) <==> Chain(physical, admissions))
      && b.ancestry + [b.admitted.transaction] == Transactions(admissions)
  {
    hide VerifiedAdmission;
    assert Cursor(physical, Transactions(admissions), 0) == physical;
  }

  lemma {:induction false} AdvanceIsChain(physical: Published, admissions: seq<Admitted>, b: Bridge)
    requires |admissions| > 1 && Connects(b, physical)
    requires b.ancestry + [b.admitted.transaction] == Transactions(admissions[..|admissions| - 1])
    ensures var n := |admissions| - 1; var next := AdvancedBridge(b, physical, admissions[n]);
      && (next.Some? <==> VerifiedAdmission(admissions[n]) && admissions[n].transaction.prior == Some(Cursor(physical, Transactions(admissions), n)))
      && (next.Some? ==> next.value.admitted == admissions[n] && Connects(next.value, physical)
                         && next.value.ancestry + [next.value.admitted.transaction] == Transactions(admissions))
  {
    hide VerifiedAdmission, Connects, Verified;
    var n := |admissions| - 1;
    assert Transactions(admissions) == Transactions(admissions[..n]) + [admissions[n].transaction];
    assert b.Logical() == Transactions(admissions[..n])[n - 1].desired == Cursor(physical, Transactions(admissions), n);
    if VerifiedAdmission(admissions[n]) && admissions[n].transaction.prior == Some(b.Logical()) {
      AdvanceConnects(b, physical, admissions[n]);
    }
  }

  lemma {:induction false} ChainExtends(physical: Published, admissions: seq<Admitted>)
    requires |admissions| > 1
    ensures var n := |admissions| - 1;
      Chain(physical, admissions) <==>
        && Chain(physical, admissions[..n]) && VerifiedAdmission(admissions[n])
        && admissions[n].transaction.prior == Some(Cursor(physical, Transactions(admissions), n))
  {
    hide VerifiedAdmission, Verified;
    var n := |admissions| - 1;
    var earlier := admissions[..n];
    forall i | 0 <= i < n ensures earlier[i] == admissions[i] && Cursor(physical, Transactions(earlier), i) == Cursor(physical, Transactions(admissions), i) {
    }
    if Chain(physical, admissions) {
      forall i | 0 <= i < n
        ensures VerifiedAdmission(earlier[i]) && earlier[i].transaction.prior == Some(Cursor(physical, Transactions(earlier), i))
      {
        assert VerifiedAdmission(admissions[i]);
      }
    }
  }

  /** Along a bridge generations strictly grow, so the logical one is later than the physical. */
  lemma {:induction false} BridgeClimbs(b: Bridge, physical: Published)
    requires Connects(b, physical)
    ensures physical.generation < b.Logical().generation
  {
    CursorClimbs(b, physical, |b.ancestry|);
  }

  lemma {:induction false} CursorClimbs(b: Bridge, physical: Published, i: nat)
    requires Connects(b, physical) && i <= |b.ancestry|
    ensures physical.generation <= Cursor(physical, b.ancestry, i).generation
    ensures i > 0 ==> physical.generation < Cursor(physical, b.ancestry, i).generation
  {
    if i > 0 {
      CursorClimbs(b, physical, i - 1);
      assert Verified(b.ancestry[i - 1]);
    }
  }
}
