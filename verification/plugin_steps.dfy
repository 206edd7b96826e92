/** The steps of one command in a row, and requests to the journal object seen as such steps. */
module PluginSteps {
  import opened Results
  import opened Attachments
  import opened JournalModel
  import opened AttachmentJournals
  import opened Lifecycle

  /** The host after `n` plugin steps of one command. Step number i takes the i-th answer: of
      `listings` where the command is about to list, of `answers` everywhere else. */
  ghost function Drive(node: Node, h: Host, listings: nat -> Answers, answers: nat -> Answers, n: nat): Host
    requires ValidProvider(node.site.provider)
  {
    if n == 0 then h
    else
      var before := Drive(node, h, listings, answers, n - 1);
      PluginStep(node, before, if before.pc.CollectList? then listings(n - 1) else answers(n - 1))
  }

  lemma {:induction false} NoSteps(node: Node, h: Host, listings: nat -> Answers, answers: nat -> Answers)
    requires ValidProvider(node.site.provider)
    ensures Drive(node, h, listings, answers, 0) == h
  {
  }

  lemma {:induction false} DriveOn(node: Node, h: Host, listings: nat -> Answers, answers: nat -> Answers, n: nat)
    requires ValidProvider(node.site.provider)
    ensures var before := Drive(node, h, listings, answers, n);
      Drive(node, h, listings, answers, n + 1) == PluginStep(node, before, if before.pc.CollectList? then listings(n) else answers(n))
  {
    hide PluginStep;
  }

  /** A command that has ended stays ended, so its end is the same for every later count. */
  lemma {:induction false} EndedStays(node: Node, h: Host, listings: nat -> Answers, answers: nat -> Answers, m: nat, n: nat)
    requires ValidProvider(node.site.provider) && m <= n && Drive(node, h, listings, answers, m).pc.Idle?
    ensures Drive(node, h, listings, answers, n) == Drive(node, h, listings, answers, m)
  {
    if m < n { EndedStays(node, h, listings, answers, m, n - 1); }
  }

  /** The running agent whose journal is this object. */
  ghost function AgentOf(journal: AttachmentJournal, nextId: nat): Runs.World
    reads journal
  {
    Runs.World(true, journal.View(), journal.file, nextId)
  }

  /** The host with this journal, these links and the command at `pc`. */
  ghost function HostOf(h: Host, journal: AttachmentJournal, nextId: nat, links: set<Plan>, pc: Pc): Host
    reads journal
  {
    h.(agent := AgentOf(journal, nextId), links := links, pc := pc)
  }

  /** One request to the agent: it may not arrive, and its reply may be lost. */
  method Send(node: Node, journal: AttachmentJournal, op: Operation, a: Answers, nextId: nat, ghost h: Host) returns (reply: Reply, next: nat)
    requires ValidProvider(node.site.provider) && journal.site == node.site && h.agent == AgentOf(journal, nextId)
    modifies journal
    ensures Transact(node, h, op, a) == (h.(agent := AgentOf(journal, next)), reply)
    ensures a.lost && !a.acts ==> reply == Transport && journal.View() == old(journal.View()) && journal.file == old(journal.file)
    ensures !a.lost || a.acts ==>
      var applied := Apply(node.site, old(journal.View()), old(journal.file), CURRENT_SCHEMA, op, a.env.(newId := nextId));
      && journal.View() == applied.journal && journal.file == applied.disk
      && reply == if a.lost then Transport else if applied.reply.Err? then Rejected else Answer(applied.reply.value)
  {
    hide Apply;
    if a.lost && !a.acts { return Transport, nextId; }
    var result, _ := journal.ApplyRequest(CURRENT_SCHEMA, op, a.env.(newId := nextId));
    next := nextId + 1;
    reply := if a.lost then Transport else if result.Err? then Rejected else Answer(result.value);
  }

  lemma {:induction false} ListingAnswered(site: Site, j: Journal, disk: Image, network: string, after: Option<Key>, env: Env)
    requires ValidProvider(site.provider)
    ensures Apply(site, j, disk, CURRENT_SCHEMA, List(network, after, MAX_LIST_RECORDS), env).reply.Ok?
      <==> j.Serving() && ValidListing(network, after, MAX_LIST_RECORDS)
  {
    hide ValidListing;
  }

  /** A listing request. */
  method SendList(node: Node, journal: AttachmentJournal, network: string, after: Option<Key>, a: Answers, nextId: nat, ghost h: Host)
    returns (page: Option<seq<Record>>, next: nat)
    requires ValidProvider(node.site.provider) && journal.site == node.site && h.agent == AgentOf(journal, nextId)
    ensures var (h', reply) := Transact(node, h, List(network, after, MAX_LIST_RECORDS), a);
      h' == h.(agent := AgentOf(journal, next)) && (page.Some? <==> reply.Answer?)
    ensures page.Some? ==> page.value == Listing(journal.table, network, after, MAX_LIST_RECORDS)
    ensures page.Some? <==> !a.lost && journal.View().Serving() && ValidListing(network, after, MAX_LIST_RECORDS)
  {
    hide Apply, Listing, ValidListing;
    ListingAnswered(node.site, journal.View(), journal.file, network, after, a.env.(newId := nextId));
    if a.lost && !a.acts { return None, nextId; }
    var result := journal.ListRequest(CURRENT_SCHEMA, network, after, MAX_LIST_RECORDS, a.env.(newId := nextId));
    next := nextId + 1;
    page := if a.lost || result.Err? then None else Some(result.value);
  }

  /** Deletes a pair in the kernel. */
  method SendUnlink(node: Node, record: Record, links: set<Plan>, a: Answers, ghost h: Host) returns (ok: bool, alive: set<Plan>)
    requires h.links == links
    ensures Unlink(node, h, record, a) == (h.(links := alive), ok) && alive <= links
    ensures ok <==> node.buildable(PlanOf(record)) && !a.fails
    ensures ok ==> alive == links - {PlanOf(record)}
    ensures !node.buildable(PlanOf(record)) ==> alive == links
  {
    if !node.buildable(PlanOf(record)) { return false, links; }
    ok := !a.fails;
    alive := if ok || a.acts then links - {PlanOf(record)} else links;
  }

  /** Agent, hook, file system and kernel answer well. */
  predicate Healthy(a: Answers) { !a.lost && !a.fails && !a.env.hookFails && a.env.persist == Persisted }

  lemma {:induction false} HealthyBegin(site: Site, j: Journal, disk: Image, key: Key, a: Answers, newId: nat)
    requires ValidProvider(site.provider) && j.Serving() && j.revision + 1 <= U64_MAX && Healthy(a)
    ensures var applied := Apply(site, j, disk, CURRENT_SCHEMA, BeginDelete(key), a.env.(newId := newId));
      && (applied.reply.Err? <==> !ValidKey(key) || (key in j.table && j.table[key].phase == Aborting))
      && (applied.reply.Err? ==> applied.journal == j)
      && applied.journal.Serving() && applied.journal.revision <= j.revision + 1
      && (applied.reply.Ok? ==> applied.reply.value == if key in j.table then Some(j.table[key].(phase := Deleting)) else None)
      && (applied.reply.Ok? ==> applied.journal.table == if key in j.table then j.table[key := j.table[key].(phase := Deleting)] else j.table)
  {
    hide ValidKey, LegacyBlocked;
    if key in j.table && j.table[key].phase == Deleting {
      assert j.table[key := j.table[key]] == j.table;
    }
  }

  lemma {:induction false} HealthyComplete(site: Site, j: Journal, disk: Image, op: Operation, a: Answers, newId: nat)
    requires ValidProvider(site.provider) && j.Serving() && j.revision + 1 <= U64_MAX && Healthy(a)
    requires (op.CompleteDelete? || op.CompleteAbort?) && ValidKey(op.key)
    requires op.key in j.table && j.table[op.key].phase == if op.CompleteDelete? then Deleting else Aborting
    ensures var applied := Apply(site, j, disk, CURRENT_SCHEMA, op, a.env.(newId := newId));
      && applied.reply.Ok? && applied.journal.table == j.table - {op.key}
      && applied.journal.Serving() && applied.journal.revision <= j.revision + 1
  {
    hide ValidKey, LegacyBlocked;
  }
}
