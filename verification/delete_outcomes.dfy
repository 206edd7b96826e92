/** What a DEL achieves: with working answers, and while the agent cannot be reached. */
module DeleteOutcomes {
  import opened Attachments
  import opened JournalModel
  import opened Lifecycle
  import opened DeferredDeletes
  import opened PluginSteps
  import opened HealthyCommands

  /** During an outage a DEL reports success at once, queued or already queued, whatever else the
      queue holds, and nothing else changes; only a full queue makes it fail. */
  lemma {:induction false} OutageDeleteIsQueued(node: Node, h: Host, key: Key, answers: nat -> Answers)
    requires ValidProvider(node.site.provider) && !h.agent.open && h.pc == DrainList(Del(key)) && forall n :: !answers(n).fails
    ensures Go(node, h, answers, 3) ==
      if key in h.queue then h.(pc := Idle(Deleted(key)))
      else if |QueuedIn(h, key.network)| < MAX_PENDING_DELETES then h.(pc := Idle(Deleted(key)), queue := h.queue[key := h.clock])
      else h.(pc := Idle(Failure))
  {
    hide Go, PluginStep, QueuedIn;
    GoOn(node, h, answers, 0);
    GoOn(node, h, answers, 1);
    GoOn(node, h, answers, 2);
    assert !answers(0).fails && !answers(2).fails;
    OutageLists(node, h, key, answers(0));
    OutageBegins(node, Go(node, h, answers, 1), key, answers(1));
    Enqueues(node, Go(node, h, answers, 2), key, true, answers(2));
    assert QueuedIn(Go(node, h, answers, 2), key.network) == QueuedIn(h, key.network) by { QueuedAlike(Go(node, h, answers, 2), h, key.network); }
  }

  lemma {:induction false} QueuedAlike(a: Host, b: Host, network: string)
    requires a.queue == b.queue
    ensures QueuedIn(a, network) == QueuedIn(b, network)
  {
  }

  /** The DEL begins a delete: of the first queued entry, or its own. */
  lemma {:induction false} OutageLists(node: Node, h: Host, key: Key, a: Answers)
    requires ValidProvider(node.site.provider) && h.pc == DrainList(Del(key)) && !a.fails
    ensures var n := PluginStep(node, h, a);
      n == h.(pc := n.pc) && n.pc.DeleteBegin? && (n.pc.caller == OfCommand(key) || (n.pc.caller.OfDrain? && n.pc.caller.cmd == Del(key)))
  {
    hide SortedKeys, QueuedIn;
  }

  lemma {:induction false} OutageBegins(node: Node, h: Host, key: Key, a: Answers)
    requires ValidProvider(node.site.provider) && !h.agent.open && h.pc.DeleteBegin?
    requires h.pc.caller == OfCommand(key) || (h.pc.caller.OfDrain? && h.pc.caller.cmd == Del(key))
    ensures PluginStep(node, h, a) == h.(pc := Enqueue(key, true))
  {
  }

  lemma {:induction false} Enqueues(node: Node, h: Host, key: Key, transport: bool, a: Answers)
    requires ValidProvider(node.site.provider) && h.pc == Enqueue(key, transport) && !a.fails
    ensures var report := if transport then Deleted(key) else Failure;
      PluginStep(node, h, a) ==
        if key in h.queue then h.(pc := Idle(report))
        else if |QueuedIn(h, key.network)| < MAX_PENDING_DELETES then h.(pc := Idle(report), queue := h.queue[key := h.clock])
        else h.(pc := Idle(Failure))
  {
    hide QueuedIn;
  }

  lemma {:induction false} BeginsDelete(node: Node, h: Host, s: Scene, key: Key, a: Answers)
    requires ValidProvider(node.site.provider) && Stands(node, h, s, DeleteBegin(key, OfCommand(key))) && s.room > 0 && Healthy(a)
    ensures var n := PluginStep(node, h, a);
      if !ValidKey(key) || (key in s.table && s.table[key].phase == Aborting) then Stands(node, n, s, Enqueue(key, false)) && n.clock == h.clock
      else if key !in s.table then Stands(node, n, s.(room := s.room - 1), Idle(Deleted(key)))
      else
        var leaving := s.table[key].(phase := Deleting);
        Stands(node, n, Moved(s, s.table[key := leaving]), DeleteCleanup(leaving, OfCommand(key))) && n.clock == h.clock
  {
    hide Transact, ValidTable, ValidKey;
    HealthyTransact(node, h, BeginDelete(key), a, s, h.pc);
    TransactFrame(node, h, BeginDelete(key), a);
    if key in s.table && s.table[key].phase == Deleting { assert s.table[key := s.table[key]] == s.table; }
  }

  lemma {:induction false} CleansUp(node: Node, h: Host, s: Scene, record: Record, key: Key, a: Answers)
    requires ValidProvider(node.site.provider) && Stands(node, h, s, DeleteCleanup(record, OfCommand(key))) && !a.fails
    ensures PluginStep(node, h, a).clock == h.clock
    ensures var n := PluginStep(node, h, a);
      if node.buildable(PlanOf(record)) then Stands(node, n, s.(links := s.links - {PlanOf(record)}), DeleteComplete(record.spec.key, OfCommand(key)))
      else Stands(node, n, s, Enqueue(key, false))
  {
    hide ValidTable;
  }

  lemma {:induction false} CompletesDelete(node: Node, h: Host, s: Scene, key: Key, a: Answers)
    requires ValidProvider(node.site.provider) && Stands(node, h, s, DeleteComplete(key, OfCommand(key))) && s.room > 0 && Healthy(a)
    requires key in s.table && s.table[key].phase == Deleting
    ensures Stands(node, PluginStep(node, h, a), Moved(s, s.table - {key}), Idle(Deleted(key)))
  {
    hide Transact, ValidTable, ValidKey;
    TableKeyIsValid(node.site, s.table, key);
    HealthyTransact(node, h, CompleteDelete(key), a, s, h.pc);
  }

  lemma {:induction false} EnqueuesScene(node: Node, h: Host, s: Scene, key: Key, a: Answers)
    requires ValidProvider(node.site.provider) && Stands(node, h, s, Enqueue(key, false)) && !a.fails
    requires forall k :: k in s.queue ==> k.network != key.network
    ensures Stands(node, PluginStep(node, h, a), s.(queue := s.queue[key := h.clock]), Idle(Failure))
  {
    hide ValidTable;
    assert QueuedIn(h, key.network) == {};
    Enqueues(node, h, key, false, a);
  }

  lemma {:induction false} StartClock(node: Node, h: Host, cmd: Command, a: Answers)
    requires ValidProvider(node.site.provider) && h.pc == DrainList(cmd)
    ensures PluginStep(node, h, a).clock == h.clock
  {
    hide SortedKeys, QueuedIn;
  }

  /** What is left after a DEL: of a drainable key neither record nor pair; of any other its
      queue entry, with every other record and every link as before. */
  ghost predicate Left(node: Node, s: Scene, key: Key, clock: nat, end: Host) {
    if Drainable(node, s.table, key) then
      Ends(end, Deleted(key), s.table - {key}, s.links - PlansOf(s.table, [key]), s.queue) && end.agent.disk.table == s.table - {key}
    else
      && end.pc == Idle(Failure) && end.queue == s.queue[key := clock] && end.links == s.links
      && forall k :: k != key ==> Lookup(end.agent.journal.table, k) == Lookup(s.table, k)
  }

  /** With working answers and nothing to drain, a DEL succeeds exactly for a drainable key: then
      its record is gone from table and file and its pair from the kernel. Otherwise it fails and
      is queued, with every other record and every link as before. */
  lemma {:induction false} DeleteSucceedsExactly(node: Node, h: Host, s: Scene, key: Key, answers: nat -> Answers)
    requires ValidProvider(node.site.provider) && Stands(node, h, s, DrainList(Del(key))) && s.room >= 3 && s.saved
    requires (forall n :: Healthy(answers(n))) && forall k :: k in s.queue ==> k.network != key.network
    ensures Left(node, s, key, h.clock, Go(node, h, answers, 4))
  {
    hide Stands, Go, PluginStep, PlanOf, PlansOf, Healthy, ValidKey, Left;
    assert Healthy(answers(0)) && Healthy(answers(1)) && Healthy(answers(2));
    NotFailing(answers(0));
    NotFailing(answers(2));
    GoOn(node, h, answers, 0);
    GoOn(node, h, answers, 1);
    GoOn(node, h, answers, 2);
    Starts(node, h, s, Del(key), answers(0));
    StandsPc(node, h, s, DrainList(Del(key)));
    StartClock(node, h, Del(key), answers(0));
    BeginsDelete(node, Go(node, h, answers, 1), s, key, answers(1));
    if !ValidKey(key) || (key in s.table && s.table[key].phase == Aborting) {
      EnqueuesScene(node, Go(node, h, answers, 2), s, key, answers(2));
      EndsBy(node, h, answers, 3, 4, s.(queue := s.queue[key := h.clock]), Failure);
      LeftQueued(node, s, key, h.clock, Go(node, h, answers, 4));
    } else if key !in s.table {
      EndsBy(node, h, answers, 2, 4, s.(room := s.room - 1), Deleted(key));
      LeftAbsent(node, s, key, h.clock, Go(node, h, answers, 4));
    } else {
      StandsLinks(node, h, s, DrainList(Del(key)), key);
      DeletesRecord(node, h, s, key, answers, h.clock);
    }
  }

  lemma {:induction false} LeftQueued(node: Node, s: Scene, key: Key, clock: nat, end: Host)
    requires !ValidKey(key) || (key in s.table && s.table[key].phase == Aborting)
    requires Ends(end, Failure, s.table, s.links, s.queue[key := clock])
    ensures Left(node, s, key, clock, end)
  {
    hide ValidKey, PlanOf;
  }

  lemma {:induction false} LeftAbsent(node: Node, s: Scene, key: Key, clock: nat, end: Host)
    requires ValidKey(key) && key !in s.table && Ends(end, Deleted(key), s.table, s.links, s.queue) && end.agent.disk.table == s.table
    ensures Left(node, s, key, clock, end)
  {
    hide ValidKey, PlanOf, PlansOf;
    EntryFacts(node, s.table, key);
    assert s.table - {key} == s.table;
  }

  /** From the recorded Deleting phase on: the pair goes, then the record; or the key is queued. */
  lemma {:induction false} DeletesRecord(node: Node, h: Host, s: Scene, key: Key, answers: nat -> Answers, clock: nat)
    requires ValidProvider(node.site.provider) && s.room >= 3 && s.saved && key in s.table && ValidKey(key)
    requires s.table[key].phase != Aborting && s.table[key].spec.key == key
    requires (forall n :: Healthy(answers(n))) && forall k :: k in s.queue ==> k.network != key.network
    requires var leaving := s.table[key].(phase := Deleting); var now := Go(node, h, answers, 2);
      Stands(node, now, Moved(s, s.table[key := leaving]), DeleteCleanup(leaving, OfCommand(key))) && now.clock == clock
    ensures Left(node, s, key, clock, Go(node, h, answers, 4))
  {
    hide Stands, Go, PluginStep, PlanOf, PlansOf, Healthy, ValidKey;
    assert Healthy(answers(2)) && Healthy(answers(3));
    NotFailing(answers(2));
    NotFailing(answers(3));
    GoOn(node, h, answers, 2);
    GoOn(node, h, answers, 3);
    EntryFacts(node, s.table, key);
    var leaving := s.table[key].(phase := Deleting);
    var begun := Moved(s, s.table[key := leaving]);
    CleansUp(node, Go(node, h, answers, 2), begun, leaving, key, answers(2));
    if node.buildable(PlanOf(leaving)) {
      CompletesDelete(node, Go(node, h, answers, 3), begun.(links := begun.links - {PlanOf(leaving)}), key, answers(3));
      assert s.table[key := leaving] - {key} == s.table - {key};
      EndsBy(node, h, answers, 4, 4, Moved(begun.(links := begun.links - {PlanOf(leaving)}), s.table[key := leaving] - {key}), Deleted(key));
    } else {
      EnqueuesScene(node, Go(node, h, answers, 3), begun, key, answers(3));
      EndsBy(node, h, answers, 4, 4, begun.(queue := begun.queue[key := clock]), Failure);
    }
  }

  lemma {:induction false} StandsPc(node: Node, h: Host, s: Scene, pc: Pc)
    requires Stands(node, h, s, pc)
    ensures h.pc == pc
  {
  }

  lemma {:induction false} StandsLinks(node: Node, h: Host, s: Scene, pc: Pc, key: Key)
    requires Stands(node, h, s, pc)
    ensures key in s.table ==> s.table[key].spec.key == key
  {
    if key in s.table { assert ValidRecord(node.site, key, s.table[key]); }
  }
}
