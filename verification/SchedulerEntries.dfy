/** What any one step can do to any one entry. */
module SchedulerEntries {
  import opened Base
  import opened Network
  import opened NodeStore
  import opened Scheduler
  import opened SchedulerInvariant
  import opened SchedulerLifecycle

  /** Thread `i` is working on `k` and may edit its entry. */
  predicate Edits(s: State, i: nat, k: AddrKey) {
    i < |s.threads| && s.threads[i].call == NoCall && s.threads[i].role.Worker? && KeyOf(s.threads[i].pc) == Some(k) &&
    !s.threads[i].pc.Decrementing?
  }

  /** An entry is left alone but for its timestamp, given up by the `enqueue` whose send was refused, queued again
      by fresher gossip, or edited by the worker it belongs to. */
  predicate EntryStep(s: State, i: nat, ev: Event, k: AddrKey, e: NodeEntry, e': NodeEntry)
    requires i < |s.threads|
  {
    e'.network == e.network &&
    (Similar(e, e') ||
     (s.threads[i].call == Rejected(k) && e' == e.(state := BudgetDiscarded)) ||
     (ev.Gossip? && e.state == StaleDiscarded && e' == e.(freshestTs := e'.freshestTs, state := Queued)) ||
     Edits(s, i, k))
  }

  /** An entry just made. */
  predicate Brand(ev: Event, e: NodeEntry) {
    e == NewEntry(e.network, e.freshestTs, e.state) &&
    ((ev.Seed? && e.state == Queued && e.network == ev.network) || (ev.Gossip? && e.state in {Queued, StaleDiscarded}))
  }

  ghost predicate EntriesStep(s: State, i: nat, ev: Event, entries': Entries)
    requires i < |s.threads|
  {
    (forall k :: k in s.entries ==> k in entries' && EntryStep(s, i, ev, k, s.entries[k], entries'[k])) &&
    (forall k :: k in entries' && k !in s.entries ==> Brand(ev, entries'[k]))
  }

  lemma SameEntriesStep(s: State, i: nat, ev: Event)
    requires i < |s.threads|
    ensures EntriesStep(s, i, ev, s.entries)
  {}

  lemma OwnEntriesStep(s: State, i: nat, ev: Event, k: AddrKey, e: NodeEntry)
    requires i < |s.threads| && Edits(s, i, k) && k in s.entries && e.network == s.entries[k].network
    ensures EntriesStep(s, i, ev, s.entries[k := e])
  {
    SameEntriesStep(s, i, ev);
  }

  lemma CallEntriesStep(c: Config, s: State, i: nat)
    requires i < |s.threads| && s.threads[i].call != NoCall
    ensures EntriesStep(s, i, Tau, EnqueueStep(c, s, i).entries)
  {
    hide Queues.TrySend;
    SameEntriesStep(s, i, Tau);
  }

  lemma SeedEntriesStep(c: Config, s: State, i: nat, ev: Event)
    requires i < |s.threads| && ev.Seed?
    ensures EntriesStep(s, i, ev, Observe(s.entries, c.maxAddresses, ev.key, ev.network, ev.now).0)
  {
    SameEntriesStep(s, i, ev);
  }

  lemma GossipEntriesStep(c: Config, s: State, i: nat, ev: Event)
    requires i < |s.threads| && ev.Gossip?
    ensures EntriesStep(s, i, ev,
              Upsert(s.entries, c.maxAddresses, ev.key, ev.ts, ev.network, c.freshnessThreshold, ev.now).0)
  {
    hide TooOld;
    SameEntriesStep(s, i, ev);
  }

  lemma FinishEntriesStep(s: State, i: nat, ev: Event, k: AddrKey, terminal: NodeState, reason: Option<FailKind>)
    requires i < |s.threads| && Edits(s, i, k)
    ensures EntriesStep(s, i, ev, Finish(s, i, k, terminal, reason).entries)
  {
    hide EntriesStep;
    SameEntriesStep(s, i, ev);
    if k in s.entries {
      OwnEntriesStep(s, i, ev, k, s.entries[k].(state := terminal, failure := reason));
    }
  }

  lemma ProcessEntriesStep(c: Config, s: State, i: nat, ev: Event)
    requires i < |s.threads| && Process(c, s, i, ev).Some? && Edits(s, i, s.threads[i].pc.key)
    ensures EntriesStep(s, i, ev, Process(c, s, i, ev).value.entries)
  {
    hide EntriesStep, Advance;
    var k := s.threads[i].pc.key;
    AdvanceKeys(c, s.entries[k], s.threads[i].pc, ev);
    OwnEntriesStep(s, i, ev, k, Advance(c, s.entries[k], s.threads[i].pc, ev).value.0);
  }

  lemma DiscoverEntriesStep(c: Config, s: State, i: nat, ev: Event)
    requires i < |s.threads| && s.threads[i].pc.Discovering? && Discover(c, s, i, ev).Some?
    requires Edits(s, i, s.threads[i].pc.key)
    ensures EntriesStep(s, i, ev, Discover(c, s, i, ev).value.entries)
  {
    hide EntriesStep, Upsert;
    SameEntriesStep(s, i, ev);
    if ev.Gossip? {
      GossipEntriesStep(c, s, i, ev);
    } else {
      var k := s.threads[i].pc.key;
      OwnEntriesStep(s, i, ev, k, Note(c, s.entries[k], k, ev).value.0);
    }
  }

  lemma WorkerEntriesStep(c: Config, s: State, s': State, i: nat, t: Transport, ev: Event)
    requires i < |s.threads| && s.threads[i].call == NoCall && s.threads[i].role == Worker(t)
    requires WorkerStep(c, s, i, t, ev) == Some(s')
    ensures EntriesStep(s, i, ev, s'.entries)
  {
    hide EntriesStep, Process, Discover, Receive, Finish, Queues.TrySend;
    SameEntriesStep(s, i, ev);
    match s.threads[i].pc
    case Idle => ReceiveKeeps(s, i, t, ev == Late);
    case Finishing(k, terminal, reason) => FinishEntriesStep(s, i, ev, k, terminal, reason);
    case Discovering(_) => DiscoverEntriesStep(c, s, i, ev);
    case Received(_) =>
    case Refused(_) =>
    case Decrementing(_, _) =>
    case Resending(_, _, _) =>
    case _ =>
      OnlyKeyed(c, s, i, ev);
      ProcessEntriesStep(c, s, i, ev);
  }

  lemma OnlyKeyed(c: Config, s: State, i: nat, ev: Event)
    requires i < |s.threads| && Process(c, s, i, ev).Some?
    ensures KeyOf(s.threads[i].pc) == Some(s.threads[i].pc.key) && s.threads[i].pc.key in s.entries
    ensures !s.threads[i].pc.Decrementing?
  {}

  /** Every step, of any thread. */
  lemma StepEntries(c: Config, s: State, s': State, i: nat, ev: Event)
    requires i < |s.threads| && Step(c, s, i, ev) == Some(s')
    ensures EntriesStep(s, i, ev, s'.entries)
  {
    hide EntriesStep, WorkerStep, EnqueueStep, Observe;
    SameEntriesStep(s, i, ev);
    var th := s.threads[i];
    if th.call != NoCall {
      CallEntriesStep(c, s, i);
    } else if th.role.Worker? && !th.pc.Closing? {
      WorkerEntriesStep(c, s, s', i, th.role.t, ev);
    } else if ev.Seed? {
      SeedEntriesStep(c, s, i, ev);
    }
  }
}
