/** The publisher object. Between its two locked blocks other tasks may change the journal,
    the gate and the applied placement. */
module BankPublishers {
  import opened Results
  import opened Attachments
  import opened JournalModel
  import opened Locality
  import Safety = LocalitySafety

  /** What the lock holder finds outside the publisher. */
  datatype Surroundings = Surroundings(agent: Runs.World, claimed: bool, gate: Gate, registered: bool, placement: nat)

  /** The kernel's and the worker's answers during one poll. */
  datatype Answers = Answers(finished: bool, withdrawal: Withdrawal, good: nat, last: LeaseWrite, first: Withdrawal, arming: Arming)

  /** One poll as steps of the locality run: check under the first lock, then at most one
      candidate step under the second. */
  function Polled(w: World, second: Surroundings, a: Answers): World {
    if !SelectionCurrent(w) then w
    else
      var checked := StepCheck(w, a.withdrawal);
      var settled := w.active.Some? && CutCurrent(w, w.active.value.cut) && w.published == Some(w.active.value.bank);
      if settled || (w.active.Some? && a.withdrawal != Withdrawn) then checked
      else if w.selection.value.records == [] then Cleared(checked, a.withdrawal)
      else if checked.stage != Idle && !a.finished then checked
      else
        var later := checked.(agent := second.agent, claimed := second.claimed, gate := second.gate, registered := second.registered, placement := second.placement);
        match checked.stage
        case Idle => StepObserve(later)
        case Observing(_, _) => StepLease(later, a.good, a.last)
        case Sealing(_, _) => StepPublish(later, a.first, a.arming)
  }

  /** What the publisher itself owns, in user space and in the kernel. */
  datatype Own = Own(gate: Gate, stage: Stage, active: Option<Active>, published: Option<Bank>)

  function Placed(own: Own, around: Surroundings, selection: Option<Selection>): World {
    World(around.agent, around.claimed, own.gate, around.registered, around.placement, selection, own.stage, own.active, own.published)
  }

  function OwnOf(w: World): Own { Own(w.gate, w.stage, w.active, w.published) }

  /** Clearing needs no lock: it looks at nothing outside the publisher. */
  function ClearedOwn(own: Own, withdrawal: Withdrawal): (r: Own)
    ensures forall around, selection :: r == OwnOf(Cleared(Placed(own, around, selection), withdrawal))
  {
    if own.active.None? then own.(stage := Idle)
    else if withdrawal == Withdrawn then own.(published := None, active := None, stage := Idle)
    else own.(published := Withdraw(own.published, withdrawal))
  }

  class BankPublisher {
    var gate: Gate
    var stage: Stage
    var active: Option<Active>
    var published: Option<Bank>

    function View(): Own
      reads this
    {
      Own(gate, stage, active, published)
    }

    constructor (gate: Gate)
      ensures View() == Own(gate, Idle, None, None)
    {
      this.gate, stage, active, published := gate, Idle, None, None;
    }

    /** Withdraws before forgetting: a failed withdrawal keeps the owner of the active bank. */
    method Clear(withdrawal: Withdrawal) returns (ok: bool)
      modifies this
      ensures View() == ClearedOwn(old(View()), withdrawal)
      ensures ok <==> old(active).None? || withdrawal == Withdrawn
      ensures ok ==> active == None && stage == Idle && gate == old(gate)
    {
      if active.Some? {
        published := Withdraw(published, withdrawal);
        if withdrawal != Withdrawn { return false; }
      }
      active, stage, ok := None, Idle, true;
    }

    /** Leases the observed records under the second lock, all or none. */
    method Bind(now: Surroundings, selection: Option<Selection>, good: nat, last: LeaseWrite)
      requires stage.Observing?
      modifies this
      ensures View() == OwnOf(StepLease(Placed(old(View()), now, selection), good, last))
    {
      var cut, records, w := stage.cut, stage.records, Placed(View(), now, selection);
      stage := Idle;
      if !CutCurrent(w, cut) || !GateMatches(w) { return; }
      for i := 0 to |records|
        invariant stage == Idle && gate == old(gate) && active == old(active) && published == old(published)
        invariant forall j :: 0 <= j < i ==> Lookup(now.agent.journal.table, records[j].spec.key) == Some(records[j])
      {
        if Lookup(now.agent.journal.table, records[i].spec.key) != Some(records[i]) {
          assert records[i] in records;
          return;
        }
      }
      var (later, endpoints) := IssueAll(gate, records, good, last);
      gate := later;
      if endpoints.Some? { stage := Sealing(cut, Bank(later.id, endpoints.value)); }
    }

    /** Publishes the sealed bank under the second lock. */
    method Publish(now: Surroundings, selection: Option<Selection>, first: Withdrawal, arming: Arming)
      requires stage.Sealing?
      modifies this
      ensures View() == OwnOf(StepPublish(Placed(old(View()), now, selection), first, arming))
    {
      var cut, bank, w := stage.cut, stage.bank, Placed(View(), now, selection);
      stage := Idle;
      if !CutCurrent(w, cut) { return; }
      published := Withdraw(published, first);
      if first != Withdrawn || !GateMatches(w) || gate.retired || bank.gate != gate.id { return; }
      match arming
      case Armed => published, active := Some(bank), Some(Active(cut, bank));
      case NotArmed(selected, withdrawal) => published := Withdraw(if selected then Some(bank) else None, withdrawal);
    }

    /** One poll. The original cut travels through every stage and is checked again under
        each lock. */
    method Synchronize(before: Surroundings, now: Surroundings, selection: Option<Selection>, a: Answers)
      requires gate == before.gate
      modifies this
      ensures View() == OwnOf(Polled(Placed(old(View()), before, selection), now, a))
    {
      hide IssueAll;
      var w := Placed(View(), before, selection);
      if !SelectionCurrent(w) { return; }
      if active.Some? {
        if CutCurrent(w, active.value.cut) && published == Some(active.value.bank) { return; }
        var cleared := Clear(a.withdrawal);
        if !cleared { return; }
      } else if stage != Idle && !CutCurrent(w, stage.cut) {
        var _ := Clear(a.withdrawal);
      }
      if selection.value.records == [] {
        var _ := Clear(a.withdrawal);
        return;
      }
      if stage != Idle && !a.finished { return; }
      gate := now.gate;
      match stage
      case Observing(_, _) => Bind(now, selection, a.good, a.last);
      case Sealing(_, _) => Publish(now, selection, a.first, a.arming);
      case Idle =>
        if SelectionCurrent(Placed(View(), now, selection)) {
          stage := Observing(OriginalCut(selection.value.cut, now.placement), selection.value.records);
        }
    }
  }

  /** What other tasks do between the two locks: journal transactions and placement changes. */
  predicate Foreign(events: seq<Event>) {
    forall i :: 0 <= i < |events| ==> events[i].Transact? || events[i].Replace?
  }

  function AroundOf(w: World): Surroundings { Surroundings(w.agent, w.claimed, w.gate, w.registered, w.placement) }

  lemma {:induction false} ForeignFrame(site: Site, w: World, events: seq<Event>)
    requires ValidProvider(site.provider) && Foreign(events)
    ensures var n := Run(site, w, events); n == w.(agent := n.agent, gate := n.gate, placement := n.placement)
    decreases |events|
  {
    if events != [] {
      ForeignStep(site, w, events[0]);
      ForeignFrame(site, Next(site, w, events[0]), events[1..]);
    }
  }

  lemma {:induction false} ForeignStep(site: Site, w: World, e: Event)
    requires ValidProvider(site.provider) && (e.Transact? || e.Replace?)
    ensures var n := Next(site, w, e); n == w.(agent := n.agent, gate := n.gate, placement := n.placement)
  {
    hide Runs.Next, Apply;
  }

  /** A poll with any foreign activity between its locks is a stretch of the locality run,
      so everything proved of runs holds after it. */
  lemma {:induction false} PollIsSafe(site: Site, w: World, between: seq<Event>, a: Answers)
    requires ValidProvider(site.provider) && Safety.Inv(site, w) && Foreign(between)
    ensures var checked := StepCheck(w, a.withdrawal);
      var polled := Polled(w, AroundOf(Run(site, checked, between)), a);
      Safety.Inv(site, polled)
  {
    hide Safety.Inv, StepObserve, StepLease, StepPublish, Cleared, SelectionCurrent, CutCurrent, Run;
    var checked := StepCheck(w, a.withdrawal);
    Safety.NextSafe(site, w, Event.Check(a.withdrawal));
    Safety.NextSafe(site, checked, Event.Clear(a.withdrawal));
    Safety.RunSafe(site, checked, between);
    ForeignFrame(site, checked, between);
    var later := Run(site, checked, between);
    assert later == checked.(agent := later.agent, claimed := later.claimed, gate := later.gate, registered := later.registered, placement := later.placement);
    Safety.NextSafe(site, later, Observe);
    Safety.NextSafe(site, later, Event.Lease(a.good, a.last));
    Safety.NextSafe(site, later, Event.Publish(a.first, a.arming));
  }
}
