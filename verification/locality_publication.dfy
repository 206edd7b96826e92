/** Exactly what a poll keeps, withdraws and publishes, and that a selection which stays put is
    published. */
module LocalityPublication {
  import opened Results
  import opened Orders
  import opened Attachments
  import opened JournalModel
  import opened Locality
  import opened LocalitySafety
  import opened BankPublishers

  /** The selection is of the applied placement and of the journal as it is. */
  predicate SelectionUnmoved(w: World) {
    w.agent.open && w.selection.Some? && w.selection.value.placement == w.placement && At(w.agent.journal, w.selection.value.cut)
  }

  /** What a sealed bank needs besides an unmoved cut. */
  predicate GateReady(w: World, bank: Bank) {
    w.registered && w.agent.journal.hook == Some(w.gate.id) && !w.gate.retired && bank.gate == w.gate.id
  }

  /** A bank becomes the active one exactly if it was sealed, nothing moved since its cut, its
      gate is the journal's and in use, and kernel and withdrawal obey; and no bank is ever
      selected, even for a moment, unless nothing moved. */
  lemma {:induction false} PublishExactly(w: World, first: Withdrawal, arming: Arming)
    ensures var n := StepPublish(w, first, arming);
      && (w.active.None? ==>
            (n.active.Some? <==> w.stage.Sealing? && Unmoved(w, w.stage.cut) && GateReady(w, w.stage.bank) && first == Withdrawn && arming == Armed))
      && (n.active != w.active ==> w.stage.Sealing? && n.active == Some(Active(w.stage.cut, w.stage.bank)) && n.published == Some(w.stage.bank))
      && (n.published.Some? && n.published != w.published ==>
            w.stage.Sealing? && n.published == Some(w.stage.bank) && Unmoved(w, w.stage.cut) && GateReady(w, w.stage.bank))
      && (w.stage.Sealing? ==> n.stage == Idle)
      && (w.stage.Sealing? && Unmoved(w, w.stage.cut) && !(GateReady(w, w.stage.bank) && first == Withdrawn) ==>
            n.published == if first == FailedBefore then w.published else None)
      && (w.stage.Sealing? && Unmoved(w, w.stage.cut) && GateReady(w, w.stage.bank) && first == Withdrawn && arming.NotArmed? ==>
            n.published == if arming.selected && arming.withdrawal == FailedBefore then Some(w.stage.bank) else None)
  {
  }

  /** The active bank is the published one and nothing moved since its cut. */
  predicate Settled(w: World) {
    w.active.Some? && Unmoved(w, w.active.value.cut) && w.published == Some(w.active.value.bank)
  }

  /** What a poll does to the active bank, whatever happens between its locks: one that is
      settled stays, any other is withdrawn, and one that is new is of the placement the first
      lock saw. */
  lemma {:induction false} PollExactly(w: World, second: Surroundings, a: Answers)
    ensures var n := Polled(w, second, a);
      && (!SelectionUnmoved(w) ==> n == w)
      && (SelectionUnmoved(w) && Settled(w) ==> n == w)
      && (SelectionUnmoved(w) && w.active.Some? && !Settled(w) ==>
            if a.withdrawal == Withdrawn then n.active.None? && n.published.None?
            else n.active == w.active && n.stage == w.stage && n.published == (if a.withdrawal == FailedBefore then w.published else None))
      && (SelectionUnmoved(w) && w.active.None? && n.active.Some? ==>
            && w.stage.Sealing? && Unmoved(w, w.stage.cut) && n.active == Some(Active(w.stage.cut, w.stage.bank)) && n.published == Some(w.stage.bank)
            && n.active.value.cut.placement == w.placement && second.placement == w.placement
            && At(second.agent.journal, n.active.value.cut.journal) && At(second.agent.journal, w.selection.value.cut))
      && (SelectionUnmoved(w) && w.active.None? && w.stage != Idle && !Unmoved(w, w.stage.cut) ==>
            n.published == w.published && n.active.None?
            && (n.stage.Observing? ==> n.stage.cut == OriginalCut(w.selection.value.cut, w.placement)) && !n.stage.Sealing?)
  {
    hide IssueAll;
  }

  /** No withdrawal of this event fails. */
  predicate Obeyed(e: Event) {
    match e
    case Claim(found) => found == Withdrawn
    case Check(withdrawal) => withdrawal == Withdrawn
    case Clear(withdrawal) => withdrawal == Withdrawn
    case Publish(first, arming) => first == Withdrawn && (arming == Armed || arming.withdrawal == Withdrawn)
    case _ => true
  }

  /** An open journal's node publishes only the bank its publisher owns. */
  predicate Owned(w: World) {
    w.agent.open && w.published.Some? ==> w.active.Some? && w.published == Some(w.active.value.bank)
  }

  lemma {:induction false} OwnedNext(site: Site, w: World, e: Event)
    requires ValidProvider(site.provider) && Inv(site, w) && Owned(w) && Obeyed(e)
    ensures Owned(Next(site, w, e))
  {
    hide Runs.Inv, Runs.Next, Apply, IssueAll, Guarded, GateSound, BanksSound, Enrolled, Selected, InstallRequired;
    match e
    case Transact(schema, op, env, partial) => if w.agent.open { StepTransactFrame(site, w, schema, op, env, partial); }
    case InstallGate(persist) => OpenStays(site, w.agent, Runs.InstallForReaders(w.agent.nextId, persist));
    case Crash => OpenStays(site, w.agent, Runs.Crash);
    case _ =>
  }

  lemma {:induction false} OpenStays(site: Site, agent: Runs.World, e: Runs.Event)
    requires ValidProvider(site.provider)
    ensures e.InstallForReaders? ==> Runs.Next(site, agent, e).open == agent.open
    ensures e.Crash? ==> !Runs.Next(site, agent, e).open
  {
  }

  lemma {:induction false} OwnedRun(site: Site, w: World, events: seq<Event>)
    requires ValidProvider(site.provider) && Inv(site, w) && Owned(w) && forall i :: 0 <= i < |events| ==> Obeyed(events[i])
    ensures Owned(Run(site, w, events)) && Inv(site, Run(site, w, events))
    decreases |events|
  {
    hide Inv, Owned, Next, Obeyed;
    if events != [] {
      OwnedNext(site, w, events[0]);
      NextSafe(site, w, events[0]);
      OwnedRun(site, Next(site, w, events[0]), events[1..]);
    }
  }

  /** In every run whose withdrawals succeed, a poll that finds its selection unmoved leaves no
      bank published but the active one, and that one is of the placement and the journal the
      first lock saw. */
  lemma {:induction false} PollLeavesOnlyCurrent(site: Site, events: seq<Event>, second: Surroundings, a: Answers)
    requires ValidProvider(site.provider) && (forall i :: 0 <= i < |events| ==> Obeyed(events[i]))
    requires a.withdrawal == Withdrawn && Obeyed(Event.Publish(a.first, a.arming))
    ensures var w := Run(site, FirstBoot, events); var n := Polled(w, second, a);
      SelectionUnmoved(w) && n.published.Some? ==>
        && n.active.Some? && n.published == Some(n.active.value.bank)
        && n.active.value.cut.placement == w.placement && At(w.agent.journal, n.active.value.cut.journal)
  {
    hide Run, Polled, Inv;
    assert Inv(site, FirstBoot) by { FirstIsSafe(site); }
    OwnedRun(site, FirstBoot, events);
    var w := Run(site, FirstBoot, events);
    PollExactly(w, second, a);
    if SelectionUnmoved(w) && w.active.None? { UnownedPoll(w, second, a); }
  }

  lemma {:induction false} FirstIsSafe(site: Site)
    requires ValidProvider(site.provider)
    ensures Inv(site, FirstBoot)
  {
  }

  lemma {:induction false} UnownedPoll(w: World, second: Surroundings, a: Answers)
    requires SelectionUnmoved(w) && w.active.None? && w.published.None? && Obeyed(Event.Publish(a.first, a.arming))
    ensures Polled(w, second, a).published.Some? ==> Polled(w, second, a).active.Some?
  {
    hide IssueAll;
  }

  /** The inventory's order: the keys of the chosen records. */
  ghost function ChosenKeys(table: Table, chosen: set<Key>): seq<Key> {
    SortedKeys(set k | k in table && k in chosen && Selectable(table[k]))
  }

  lemma {:induction false} SelectedAt(site: Site, table: Table, chosen: set<Key>)
    requires ValidTable(site, table)
    ensures var records, order := Selected(table, chosen), ChosenKeys(table, chosen);
      && |records| == |order| && Ascending(order, KeyLess)
      && (forall i :: 0 <= i < |order| ==> order[i] in table && records[i] == table[order[i]] && records[i].spec.key == order[i])
      && (forall k :: k in order <==> k in table && k in chosen && Selectable(table[k]))
  {
    hide ValidSpec, ValidLease, KeyLess, Selectable, DistinctLeases;
    var records, order := Selected(table, chosen), ChosenKeys(table, chosen);
    var keys := set k | k in table && k in chosen && Selectable(table[k]);
    assert forall k :: k in order <==> k in keys;
    forall i | 0 <= i < |order| ensures records[i] == table[order[i]] && records[i].spec.key == order[i] {
      assert order[i] in keys && ValidRecord(site, order[i], table[order[i]]);
    }
  }

  lemma {:induction false} SelectedExactly(site: Site, table: Table, chosen: set<Key>, r: Record)
    requires ValidTable(site, table)
    ensures r in Selected(table, chosen) <==> Lookup(table, r.spec.key) == Some(r) && r.spec.key in chosen && Selectable(r)
  {
    hide ValidTable, Selectable, KeyLess, Selected, ChosenKeys;
    SelectedAt(site, table, chosen);
    var records, order := Selected(table, chosen), ChosenKeys(table, chosen);
    if r in records { var i :| 0 <= i < |records| && records[i] == r; assert order[i] in order; }
    if Lookup(table, r.spec.key) == Some(r) && r.spec.key in chosen && Selectable(r) {
      assert r.spec.key in order;
      var i :| 0 <= i < |order| && order[i] == r.spec.key;
      assert records[i] == r;
    }
  }

  /** A refresh takes exactly the chosen records that are Ready, bound to a workload and a
      nonzero nonce, in key order, under the journal and placement as they are. */
  lemma {:induction false} RefreshSelects(site: Site, w: World, chosen: set<Key>)
    requires ValidTable(site, w.agent.journal.table)
    requires w.agent.open && (w.agent.journal.required ==> w.agent.journal.hook.Some?) && w.agent.journal.instance.Some? && !SelectionUnmoved(w)
    ensures var n := StepRefresh(w, chosen, false);
      && n == w.(selection := n.selection) && SelectionUnmoved(n)
      && (forall r :: r in n.selection.value.records <==>
            && Lookup(w.agent.journal.table, r.spec.key) == Some(r) && r.spec.key in chosen
            && r.phase == Ready && r.spec.workloadUid.Some? && r.token.Some? && r.token.value != 0)
      && (forall i, j :: 0 <= i < j < |n.selection.value.records| ==> KeyLess(n.selection.value.records[i].spec.key, n.selection.value.records[j].spec.key))
  {
    hide ValidTable, KeyLess, Selected, ChosenKeys;
    SelectedAt(site, w.agent.journal.table, chosen);
    forall r ensures r in Selected(w.agent.journal.table, chosen) <==>
        Lookup(w.agent.journal.table, r.spec.key) == Some(r) && r.spec.key in chosen && Selectable(r) {
      SelectedExactly(site, w.agent.journal.table, chosen, r);
    }
  }

  /** A failed refresh forgets the selection, and until one succeeds no poll observes, leases,
      publishes or withdraws anything. */
  lemma {:induction false} FailedRefreshPauses(w: World, chosen: set<Key>, second: Surroundings, a: Answers)
    ensures var n := StepRefresh(w, chosen, true);
      n == w.(selection := None) && Polled(n, second, a) == n && StepObserve(n) == n && StepPublish(n, a.first, a.arming).published == n.published
  {
    hide Selected, IssueAll;
  }

  /** A gate in use reuses a sound live serial, or has serials left and the write succeeds. */
  predicate Issuable(g: Gate, nonce: Token, write: LeaseWrite) {
    && !g.retired && write != LookupFailed
    && (nonce in g.live ==> 0 < g.live[nonce] <= g.lastSerial)
    && (nonce !in g.live ==> g.lastSerial < U64_MAX && write == Written)
  }

  /** A lease is issued exactly if it can be; a new serial is larger than any before. Every
      other outcome but a failed lookup retires the gate. */
  lemma {:induction false} IssueExactly(g: Gate, nonce: Token, write: LeaseWrite)
    requires g.lastSerial <= U64_MAX
    ensures var (n, serial) := Issue(g, nonce, write);
      && g.lastSerial <= n.lastSerial <= U64_MAX && n.id == g.id
      && (serial.Some? <==> Issuable(g, nonce, write))
      && (serial.Some? ==> n.live == g.live[nonce := serial.value] && (if nonce in g.live then g.live[nonce] == serial.value else g.lastSerial < serial.value))
      && (n.retired <==> g.retired || (serial.None? && write != LookupFailed))
  {
    if nonce in g.live { assert g.live[nonce := g.live[nonce]] == g.live; }
  }

  /** Every write of these leases is answered, if not obeyed. */
  lemma {:induction false} IssueAllRetires(g: Gate, records: seq<Record>, good: nat, last: LeaseWrite)
    requires last != LookupFailed && (forall r :: r in records ==> Selectable(r))
    ensures var (n, leased) := IssueAll(g, records, good, last);
      (n.retired <==> g.retired || leased.None?) && (records == [] ==> leased.Some?) && (g.retired && records != [] ==> leased.None?)
    decreases |records|
  {
    hide Issue;
    if records != [] {
      assert records[0] in records;
      RetiredByIssue(g, records[0].token.value, if good > 0 then Written else last);
      IssueAllRetires(Issue(g, records[0].token.value, if good > 0 then Written else last).0, records[1..], if good > 0 then good - 1 else 0, last);
    }
  }

  lemma {:induction false} RetiredByIssue(g: Gate, nonce: Token, write: LeaseWrite)
    requires write != LookupFailed
    ensures var (n, serial) := Issue(g, nonce, write); (n.retired <==> g.retired || serial.None?) && (g.retired ==> serial.None?)
  {
  }

  /** Observed records are sealed exactly if nothing moved, the gate is the journal's, every
      record still is too, and every lease is issued. A lease that is refused leaves a retired
      gate, which seals and publishes nothing more. */
  lemma {:induction false} LeaseExactly(w: World, good: nat, last: LeaseWrite)
    requires w.stage.Observing? && last != LookupFailed && (forall r :: r in w.stage.records ==> Selectable(r))
    ensures var n := StepLease(w, good, last);
      var bound := Unmoved(w, w.stage.cut) && w.registered && w.agent.journal.hook == Some(w.gate.id)
                   && forall r :: r in w.stage.records ==> Lookup(w.agent.journal.table, r.spec.key) == Some(r);
      && (!bound ==> n == w.(stage := Idle))
      && (bound ==> (n.stage.Sealing? || n.stage == Idle) && (n.stage.Sealing? <==> w.stage.records == [] || !n.gate.retired))
      && (n.stage.Sealing? ==> n.stage.cut == w.stage.cut && n.stage.bank.gate == n.gate.id && Leased(n.gate, w.stage.records, n.stage.bank.endpoints))
      && n == w.(gate := n.gate, stage := n.stage)
  {
    hide IssueAll, Selectable, Leased;
    IssueAllRetires(w.gate, w.stage.records, good, last);
    IssueAllLeases(w.gate, w.stage.records, good, last);
    var (gate, leased) := IssueAll(w.gate, w.stage.records, good, last);
    assert leased.Some? ==> Leased(gate, w.stage.records, leased.value);
  }

  /** With an unretired gate, room for the serials and writes that succeed, every lease is issued. */
  lemma {:induction false} IssueAllSucceeds(g: Gate, records: seq<Record>, good: nat, last: LeaseWrite)
    requires !g.retired && good >= |records| && g.lastSerial + |records| <= U64_MAX
    requires forall t :: t in g.live ==> 0 < g.live[t] <= g.lastSerial
    requires forall r :: r in records ==> Selectable(r)
    ensures IssueAll(g, records, good, last).1.Some? && !IssueAll(g, records, good, last).0.retired
    decreases |records|
  {
    if records != [] {
      assert records[0] in records;
      var issued := Issue(g, records[0].token.value, Written).0;
      IssueAllSucceeds(issued, records[1..], good - 1, last);
    }
  }

  /** A selection of leasable records that are still the journal's, under a gate in use. */
  ghost predicate Publishable(w: World) {
    && SelectionUnmoved(w) && w.selection.value.records != []
    && w.registered && w.agent.journal.hook == Some(w.gate.id) && !w.gate.retired
    && (forall t :: t in w.gate.live ==> 0 < w.gate.live[t] <= w.gate.lastSerial)
    && w.gate.lastSerial + |w.selection.value.records| <= U64_MAX
    && (forall r :: r in w.selection.value.records ==> Selectable(r) && Lookup(w.agent.journal.table, r.spec.key) == Some(r))
    && w.stage == Idle && w.active.None?
  }

  function Poll(w: World, a: Answers): World { Polled(w, AroundOf(w), a) }

  lemma {:induction false} PollObserves(w: World, a: Answers)
    requires Publishable(w)
    ensures Poll(w, a) == w.(stage := Observing(OriginalCut(w.selection.value.cut, w.placement), w.selection.value.records))
  {
    hide IssueAll;
  }

  lemma {:induction false} PollLeases(w: World, a: Answers, cut: OriginalCut)
    requires Publishable(w.(stage := Idle)) && w.stage == Observing(cut, w.selection.value.records) && cut == OriginalCut(w.selection.value.cut, w.placement)
    requires a.finished && a.good >= |w.selection.value.records|
    ensures var (gate, endpoints) := IssueAll(w.gate, w.selection.value.records, a.good, a.last);
      endpoints.Some? && !gate.retired && gate.id == w.gate.id
      && Poll(w, a) == w.(gate := gate, stage := Sealing(cut, Bank(gate.id, endpoints.value)))
  {
    hide IssueAll, IsCurrent;
    assert IsCurrent(w.agent.journal, cut.journal) by { IsAt(w.agent.journal, cut.journal); }
    IssueAllSucceeds(w.gate, w.selection.value.records, a.good, a.last);
    IssueAllLeases(w.gate, w.selection.value.records, a.good, a.last);
  }

  lemma {:induction false} IsAt(j: Journal, cut: Cut)
    ensures IsCurrent(j, cut) <==> At(j, cut)
  {
  }

  lemma {:induction false} PollPublishes(w: World, a: Answers, bank: Bank)
    requires SelectionUnmoved(w) && w.selection.value.records != [] && w.active.None?
    requires w.stage == Sealing(OriginalCut(w.selection.value.cut, w.placement), bank) && GateReady(w, bank)
    requires a.finished && a.first == Withdrawn && a.arming == Armed
    ensures Poll(w, a) == w.(stage := Idle, published := Some(bank), active := Some(Active(w.stage.cut, bank)))
  {
    hide IssueAll;
  }

  /** Three polls that meet no failure and no foreign change publish the selection: one live
      endpoint per selected record, in order, owned by the publisher; a fourth changes nothing. */
  lemma {:induction false} SelectionIsPublished(w: World, a: Answers)
    requires Publishable(w) && a.finished && a.good >= |w.selection.value.records| && a.first == Withdrawn && a.arming == Armed
    ensures var n := Poll(Poll(Poll(w, a), a), a); var records := w.selection.value.records;
      && n.published.Some? && n.active == Some(Active(OriginalCut(w.selection.value.cut, w.placement), n.published.value))
      && n.published.value.gate == w.gate.id && n.gate.id == w.gate.id && n.agent == w.agent && n.selection == w.selection && n.placement == w.placement
      && |n.published.value.endpoints| == |records|
      && (forall i :: 0 <= i < |records| ==> n.published.value.endpoints[i].record == records[i] && Live(n.gate, n.published.value.endpoints[i]))
      && Poll(n, a) == n
  {
    hide IssueAll, Poll;
    var cut, records := OriginalCut(w.selection.value.cut, w.placement), w.selection.value.records;
    PollObserves(w, a);
    PollLeases(Poll(w, a), a, cut);
    IssueAllLeases(w.gate, records, a.good, a.last);
    var sealed := Poll(Poll(w, a), a);
    PollPublishes(sealed, a, sealed.stage.bank);
    PollRests(Poll(sealed, a), a);
  }

  lemma {:induction false} PollRests(w: World, a: Answers)
    requires SelectionUnmoved(w) && Settled(w)
    ensures Poll(w, a) == w
  {
    hide IssueAll;
    PollExactly(w, AroundOf(w), a);
  }
}
