/** The locality fence: a kernel gate of attachment nonces that the journal's retirement
    hook revokes, and the publisher that carries one journal cut from selection through
    observation, leasing and sealing to publication. */
module Locality {
  import opened Results
  import opened Attachments
  import opened JournalModel
  import Runs = JournalRuns

  /** One kernel gate: the serial under which each nonce is live. */
  datatype Gate = Gate(id: nat, live: map<Token, nat>, lastSerial: nat, retired: bool)

  /** A leased attachment, as a bank program compares it on every packet. */
  datatype Endpoint = Endpoint(record: Record, serial: nat)

  datatype Bank = Bank(gate: nat, endpoints: seq<Endpoint>)

  /** The kernel's answer to a lease lookup, write and read-back. */
  datatype LeaseWrite = Written | Refused(present: bool) | LookupFailed

  /** A withdrawal of the published bank may fail with or without taking effect. */
  datatype Withdrawal = Withdrawn | FailedAfter | FailedBefore

  /** Selecting and arming a bank may fail with or without having selected it. */
  datatype Arming = Armed | NotArmed(selected: bool, withdrawal: Withdrawal)

  /** One lease: reuse the live serial, or consume the next one before writing it. */
  function Issue(g: Gate, nonce: Token, write: LeaseWrite): (Gate, Option<nat>) {
    if g.retired || write == LookupFailed then (g, None)
    else if nonce in g.live then
      if g.live[nonce] == 0 || g.live[nonce] > g.lastSerial then (g.(retired := true), None)
      else (g, Some(g.live[nonce]))
    else if g.lastSerial == U64_MAX then (g.(retired := true), None)
    else
      var serial := g.lastSerial + 1;
      var written := g.(lastSerial := serial, live := g.live[nonce := serial]);
      if write == Written then (written, Some(serial))
      else (written.(retired := true, live := if write.present then written.live else g.live), None)
  }

  /** Leases for the records in order; none escape when one fails. The first `good`
      writes succeed and the next, if any is needed, is answered by `last`. */
  function IssueAll(g: Gate, records: seq<Record>, good: nat, last: LeaseWrite): (Gate, Option<seq<Endpoint>>)
    decreases |records|
  {
    if records == [] then (g, Some([]))
    else if !Selectable(records[0]) then (g, None)
    else
      var (issued, serial) := Issue(g, records[0].token.value, if good > 0 then Written else last);
      if serial.None? then (issued, None)
      else
        var (final, rest) := IssueAll(issued, records[1..], if good > 0 then good - 1 else 0, last);
        (final, if rest.None? then None else Some([Endpoint(records[0], serial.value)] + rest.value))
  }

  /** What the gate holds after the hook was handed a nonce. */
  function Revoke(g: Gate, nonce: Option<Token>, fails: bool, partial: bool): Gate {
    if nonce.None? || (fails && !partial) then g else g.(live := g.live - {nonce.value})
  }

  /** A journal cut together with the applied placement it was taken under. */
  datatype OriginalCut = OriginalCut(journal: Cut, placement: nat)

  datatype Selection = Selection(cut: Cut, placement: nat, records: seq<Record>)

  datatype Stage =
    | Idle
    | Observing(cut: OriginalCut, records: seq<Record>)
    | Sealing(cut: OriginalCut, bank: Bank)

  datatype Active = Active(cut: OriginalCut, bank: Bank)

  /** The agent, its gate and publisher, and the bank selected in the kernel. `claimed` says
      that this process owns the runtime maps and has withdrawn what it found there,
      `registered` that it owns `gate` as its journal's retirement hook. */
  datatype World = World(agent: Runs.World, claimed: bool, gate: Gate, registered: bool, placement: nat,
                         selection: Option<Selection>, stage: Stage, active: Option<Active>,
                         published: Option<Bank>)

  datatype Event =
    | Transact(schema: nat, op: Operation, env: Env, partial: bool)
    | Crash
    | Claim(found: Withdrawal)
    | Boot
    | InstallGate(persist: PersistOutcome)
    | Replace(placement: nat)
    | Refresh(chosen: set<Key>, fails: bool)
    | Check(withdrawal: Withdrawal)
    | Observe
    | Drop
    | Lease(good: nat, last: LeaseWrite)
    | Publish(first: Withdrawal, arming: Arming)
    | Clear(withdrawal: Withdrawal)

  predicate CutCurrent(w: World, cut: OriginalCut) {
    && w.agent.open && w.selection.Some?
    && cut.placement == w.placement && w.selection.value.placement == w.placement
    && IsCurrent(w.agent.journal, cut.journal)
    && IsCurrent(w.agent.journal, w.selection.value.cut)
  }

  predicate SelectionCurrent(w: World) {
    && w.agent.open && w.selection.Some?
    && w.selection.value.placement == w.placement
    && IsCurrent(w.agent.journal, w.selection.value.cut)
  }

  /** A record the inventory may select: Ready, bound to a workload and a nonzero nonce. */
  predicate Selectable(r: Record) {
    r.phase == Ready && r.spec.workloadUid.Some? && r.token.Some? && r.token.value != 0
  }

  ghost function Selected(table: Table, chosen: set<Key>): seq<Record> {
    var keys := set k | k in table && k in chosen && Selectable(table[k]);
    var order := SortedKeys(keys);
    seq(|order|, i requires 0 <= i < |order| => table[order[i]])
  }

  function Withdraw(published: Option<Bank>, withdrawal: Withdrawal): Option<Bank> {
    if withdrawal == FailedBefore then published else None
  }

  /** Retires candidate and active bank; a failed withdrawal keeps the active owner. */
  function Cleared(w: World, withdrawal: Withdrawal): World {
    if w.active.None? then w.(stage := Idle)
    else if withdrawal == Withdrawn then w.(published := None, active := None, stage := Idle)
    else w.(published := Withdraw(w.published, withdrawal))
  }

  predicate GateMatches(w: World) {
    w.registered && w.agent.journal.hook == Some(w.gate.id)
  }

  ghost function StepTransact(site: Site, w: World, schema: nat, op: Operation, env: Env, partial: bool): World
    requires ValidProvider(site.provider)
  {
    if !w.agent.open then w
    else
      var a := Apply(site, w.agent.journal, w.agent.disk, schema, op, env.(newId := w.agent.nextId));
      var gate := if w.agent.journal.hook == Some(w.gate.id)
        then Revoke(w.gate, a.revoked, env.hookFails, partial) else w.gate;
      w.(agent := Runs.Next(site, w.agent, Runs.Transact(schema, op, env)), gate := gate)
  }

  /** A fresh empty gate becomes the hook of a journal that has none. */
  ghost function StepInstall(site: Site, w: World, persist: PersistOutcome): World
    requires ValidProvider(site.provider)
  {
    var hook := w.agent.nextId;
    var agent := Runs.Next(site, w.agent, Runs.InstallForReaders(hook, persist));
    if !w.agent.open || w.agent.journal.hook.Some? || w.agent.journal.instance.None? then w.(agent := agent)
    else
      var i := InstallRequired(w.agent.journal, w.agent.disk, hook, hook, persist);
      w.(agent := agent, gate := Gate(hook, map[], 0, false), registered := i.registration.Some?)
  }

  ghost function StepRefresh(w: World, chosen: set<Key>, fails: bool): World {
    if fails then w.(selection := None)
    else if SelectionCurrent(w) then w
    else if !w.agent.open || TakeCut(w.agent.journal).None? then w.(selection := None)
    else w.(selection := Some(Selection(TakeCut(w.agent.journal).value, w.placement,
                                        Selected(w.agent.journal.table, chosen))))
  }

  function StepCheck(w: World, withdrawal: Withdrawal): World {
    if !SelectionCurrent(w) then w
    else if w.active.Some? then
      if CutCurrent(w, w.active.value.cut) && w.published == Some(w.active.value.bank) then w
      else Cleared(w, withdrawal)
    else if w.stage != Idle && !CutCurrent(w, w.stage.cut) then Cleared(w, withdrawal)
    else w
  }

  function StepObserve(w: World): World {
    if w.stage == Idle && SelectionCurrent(w) && w.selection.value.records != [] then
      w.(stage := Observing(OriginalCut(w.selection.value.cut, w.placement), w.selection.value.records))
    else w
  }

  /** Binding under the journal lock: every record is still the journal's, then each is leased. */
  function StepLease(w: World, good: nat, last: LeaseWrite): World {
    if !w.stage.Observing? then w
    else
      var taken := w.(stage := Idle);
      if !CutCurrent(w, w.stage.cut) || !GateMatches(w) then taken
      else if exists r :: r in w.stage.records && Lookup(w.agent.journal.table, r.spec.key) != Some(r) then taken
      else
        var (gate, endpoints) := IssueAll(w.gate, w.stage.records, good, last);
        if endpoints.None? then taken.(gate := gate)
        else taken.(gate := gate, stage := Sealing(w.stage.cut, Bank(gate.id, endpoints.value)))
  }

  /** Publication withdraws first, validates the original cut and gate, then selects and arms. */
  function StepPublish(w: World, first: Withdrawal, arming: Arming): World {
    if !w.stage.Sealing? then w
    else
      var taken := w.(stage := Idle);
      if !CutCurrent(w, w.stage.cut) then taken
      else
        var withdrawn := taken.(published := Withdraw(w.published, first));
        if first != Withdrawn || !GateMatches(w) || w.gate.retired || w.stage.bank.gate != w.gate.id then withdrawn
        else match arming
          case Armed => withdrawn.(published := Some(w.stage.bank), active := Some(Active(w.stage.cut, w.stage.bank)))
          case NotArmed(selected, withdrawal) =>
            withdrawn.(published := Withdraw(if selected then Some(w.stage.bank) else None, withdrawal))
  }

  ghost function Next(site: Site, w: World, e: Event): World
    requires ValidProvider(site.provider)
  {
    match e
    case Transact(schema, op, env, partial) => StepTransact(site, w, schema, op, env, partial)
    case Crash =>
      w.(agent := Runs.Next(site, w.agent, Runs.Crash), claimed := false, registered := false, selection := None, stage := Idle, active := None)
    case Claim(found) =>
      if w.agent.open || w.claimed then w else w.(published := Withdraw(w.published, found), claimed := found == Withdrawn)
    case Boot => if w.agent.open || !w.claimed then w else w.(agent := Runs.Next(site, w.agent, Runs.Open))
    case InstallGate(persist) => StepInstall(site, w, persist)
    case Replace(placement) => w.(placement := placement)
    case Refresh(chosen, fails) => StepRefresh(w, chosen, fails)
    case Check(withdrawal) => StepCheck(w, withdrawal)
    case Observe => StepObserve(w)
    case Drop => w.(stage := Idle)
    case Lease(good, last) => StepLease(w, good, last)
    case Publish(first, arming) => StepPublish(w, first, arming)
    case Clear(withdrawal) => Cleared(w, withdrawal)
  }

  ghost function Run(site: Site, w: World, events: seq<Event>): World
    requires ValidProvider(site.provider)
    decreases |events|
  {
    if events == [] then w else Run(site, Next(site, w, events[0]), events[1..])
  }

  /** A node that has never run: no journal file, no gate, no bank. */
  const FirstBoot := World(Runs.FirstBoot.(nextId := 1), false, Gate(0, map[], 0, false), false, 0, None, Idle, None, None)
}
