/** The probe's crawl: it processes the addresses it was given and asks for no others, and it does not
    filter them. When does it end? */
module SchedulerProbe {
  import opened Base
  import opened Network
  import opened NodeStore
  import opened Scheduler
  import opened SchedulerInvariant
  import opened SchedulerOwnership
  import opened SchedulerCounting
  import opened SchedulerLifecycle
  import opened SchedulerTheorems
  import opened SchedulerTermination
  import opened SchedulerVariant
  import opened SchedulerVerdicts
  import opened SchedulerEntries

  predicate Served(c: Config, e: NodeEntry) { e.network.Carrier() in c.pools }

  // ---- what holds throughout -----------------------------------------------------------------------------

  /** While seeds are still being queued, no queue is closed. */
  ghost predicate OpenWhileSeeding(s: State) {
    |s.threads| > 0 && (s.threads[0].pc.Seeding? ==> forall t :: s.queues.At(t).open)
  }

  /** Only the main thread enqueues, and its sends succeed. */
  ghost predicate SeedsSent(s: State) {
    forall i :: 0 <= i < |s.threads| && s.threads[i].call != NoCall ==>
      i == 0 && (s.threads[i].call.Marked? || s.threads[i].call.Counted?)
  }

  /** An address no worker serves waits for ever. */
  ghost predicate UnservedWait(c: Config, s: State) {
    forall k :: k in s.entries && !Served(c, s.entries[k]) ==> s.entries[k].state == Queued
  }

  ghost predicate ProbeInv(c: Config, s: State) {
    OpenWhileSeeding(s) && SeedsSent(s) && UnservedWait(c, s)
  }

  lemma NoGossip(c: Config, s: State, i: nat, ev: Event)
    requires c.probeMode && i < |s.threads| && ev.Gossip?
    ensures Step(c, s, i, ev) == None
  {
    hide Upsert;
  }

  lemma RestStays(c: Config, s: State, i: nat, ev: Event)
    requires i < |s.threads| && !s.threads[i].role.MainThread? && AtRest(s.threads[i]) && !s.Running()
    ensures Step(c, s, i, ev) == None
  {
    hide WorkerStep;
  }

  /** While the main thread is seeding nobody else moves. */
  lemma OnlyMainSeeds(c: Config, s: State, i: nat, ev: Event)
    requires Inv(c, s) && i < |s.threads| && Step(c, s, i, ev).Some? && s.threads[0].pc.Seeding?
    ensures i == 0 && s.threads[0].role == MainThread
  {
    hide Inv, Step;
    Facts(c, s);
    RoleAt(c, s, i);
    if i != 0 {
      RestStays(c, s, i, ev);
    }
  }

  /** A send while seeding has an open queue with room. */
  lemma SeedSent(c: Config, s: State)
    requires Inv(c, s) && OpenWhileSeeding(s) && s.threads[0].pc.Seeding? && s.threads[0].call.Counted?
    ensures EnqueueStep(c, s, 0).threads[0].call == NoCall
  {
    assert Owned(c, s) && Budget(c, s);
    hide Inv, Owned;
    RoomEverywhere(c, s, s.threads[0].call.child);
  }

  lemma RoomEverywhere(c: Config, s: State, k: AddrKey)
    requires Owned(c, s) && Budget(c, s) && |s.threads| > 0 && s.threads[0].call == Counted(k)
    ensures forall t :: |s.queues.At(t).items| < c.maxAddresses
  {
    hide Owned, Budget;
    assert k in Held(s.threads[0]);
    forall t ensures |s.queues.At(t).items| < c.maxAddresses {
      RoomInQueues(c, s, 0, k, t);
    }
  }

  lemma SendKeepsOpen(qs: Queues, t: Transport, k: AddrKey, capacity: nat)
    requires qs.TrySend(t, k, capacity).Some?
    ensures forall u :: qs.TrySend(t, k, capacity).value.At(u).open == qs.At(u).open
  {}

  /** The main thread, seeding. */
  lemma SeedingStep(c: Config, s: State, s': State, ev: Event)
    requires Inv(c, s) && OpenWhileSeeding(s) && SeedsSent(s) && s.threads[0].pc.Seeding? &&
        s.threads[0].role == MainThread
    requires Step(c, s, 0, ev) == Some(s')
    ensures |s'.threads| == |s.threads| && forall j :: 1 <= j < |s.threads| ==> s'.threads[j] == s.threads[j]
    ensures s'.threads[0].call == NoCall || s'.threads[0].call.Marked? || s'.threads[0].call.Counted?
    ensures OpenWhileSeeding(s')
  {
    if s.threads[0].call.Counted? {
      SeedSent(c, s);
      var k := s.threads[0].call.child;
      var t := if k in s.entries then s.entries[k].network.Carrier() else OverIp;
      if s.queues.TrySend(t, k, c.maxAddresses).Some? {
        SendKeepsOpen(s.queues, t, k, c.maxAddresses);
      }
    }
    hide Inv, Observe, Queues.TrySend;
  }

  /** Thread `i` moves on; nobody's call begins or ends, and nobody goes back to seeding. */
  ghost predicate CallsKept(s: State, s': State, i: nat) {
    i < |s.threads| == |s'.threads| && s'.threads == s.threads[i := s.threads[i].(pc := s'.threads[i].pc)] &&
    (s'.threads[i].pc.Seeding? ==> s.threads[i].pc.Seeding?)
  }

  lemma WorkerKeepsCalls(c: Config, s: State, s': State, i: nat, t: Transport, ev: Event)
    requires c.probeMode && i < |s.threads| && WorkerStep(c, s, i, t, ev) == Some(s')
    ensures CallsKept(s, s', i)
  {
    hide Process, Queues.TrySend, Receive, Finish, Discover, CallsKept;
    match s.threads[i].pc
    case Idle => ReceiveKeepsCalls(s, i, t, ev == Late);
    case Finishing(k, terminal, reason) => FinishKeepsCalls(s, i, k, terminal, reason);
    case Discovering(_) => DiscoverKeepsCalls(c, s, i, ev);
    case Received(_) => OwnKeepsCalls(c, s, s', i, t, ev);
    case Refused(_) => OwnKeepsCalls(c, s, s', i, t, ev);
    case Decrementing(_, _) => OwnKeepsCalls(c, s, s', i, t, ev);
    case Resending(_, _, _) => OwnKeepsCalls(c, s, s', i, t, ev);
    case _ => ProcessKeepsCalls(c, s, i, ev);
  }

  lemma OwnKeepsCalls(c: Config, s: State, s': State, i: nat, t: Transport, ev: Event)
    requires i < |s.threads| && WorkerStep(c, s, i, t, ev) == Some(s')
    requires var pc := s.threads[i].pc; pc.Received? || pc.Refused? || pc.Decrementing? || pc.Resending?
    ensures CallsKept(s, s', i)
  {
    hide Process, Queues.TrySend, Receive, Finish, Discover;
  }

  lemma ProcessKeepsCalls(c: Config, s: State, i: nat, ev: Event)
    requires i < |s.threads| && Process(c, s, i, ev).Some?
    ensures CallsKept(s, Process(c, s, i, ev).value, i)
  {
    hide Advance;
    AdvanceKeys(c, s.entries[s.threads[i].pc.key], s.threads[i].pc, ev);
  }

  lemma ReceiveKeepsCalls(s: State, i: nat, t: Transport, late: bool)
    requires i < |s.threads| && Receive(s, i, t, late).Some?
    ensures CallsKept(s, Receive(s, i, t, late).value, i)
  {}

  lemma FinishKeepsCalls(s: State, i: nat, k: AddrKey, terminal: NodeState, reason: Option<FailKind>)
    requires i < |s.threads|
    ensures CallsKept(s, Finish(s, i, k, terminal, reason), i)
  {}

  lemma DiscoverKeepsCalls(c: Config, s: State, i: nat, ev: Event)
    requires c.probeMode && i < |s.threads| && s.threads[i].pc.Discovering? && Discover(c, s, i, ev).Some?
    ensures CallsKept(s, Discover(c, s, i, ev).value, i)
  {}

  lemma QuietMain(c: Config, s: State, s': State, i: nat, ev: Event)
    requires i < |s.threads| && s.threads[i].call == NoCall && !s.threads[i].pc.Seeding?
    requires (s.threads[i].pc.Closing? && CloseStep(s, i) == s') || MainStep(c, s, i, ev) == Some(s') ||
        SignalStep(s, i, ev) == Some(s')
    ensures CallsKept(s, s', i)
  {}

  /** Any thread, once seeding is over. */
  lemma CrawlingStep(c: Config, s: State, s': State, i: nat, ev: Event)
    requires c.probeMode && SeedsSent(s) && i < |s.threads| && RoleOk(s.threads[0]) && RoleOk(s.threads[i])
    requires s.threads[0].role == MainThread && (i == 0 <==> s.threads[i].role.MainThread?)
    requires !s.threads[0].pc.Seeding? && Step(c, s, i, ev) == Some(s')
    ensures forall j :: 0 <= j < |s.threads| ==> s.threads[j].call == NoCall
    ensures CallsKept(s, s', i)
  {
    assert forall j :: 0 <= j < |s.threads| ==> s.threads[j].call == NoCall;
    hide WorkerStep, MainStep, CloseStep, SignalStep, CallsKept;
    if s.threads[i].role.Worker? && !s.threads[i].pc.Closing? {
      WorkerKeepsCalls(c, s, s', i, s.threads[i].role.t, ev);
    } else {
      QuietMain(c, s, s', i, ev);
    }
  }

  lemma UnservedOne(c: Config, s: State, s': State, i: nat, ev: Event, k: AddrKey)
    requires SeedsSent(s) && i < |s.threads| && !ev.Gossip? && EntriesStep(s, i, ev, s'.entries)
    requires ThreadOk(c, s.queues, s.entries, s.threads[i])
    requires s.threads[i].role.Worker? ==> s.threads[i].role.t in c.pools
    requires k in s'.entries && !Served(c, s'.entries[k])
    requires k in s.entries && !Served(c, s.entries[k]) ==> s.entries[k].state == Queued
    ensures s'.entries[k].state == Queued
  {
    hide PcOk;
    if k in s.entries {
      assert EntryStep(s, i, ev, k, s.entries[k], s'.entries[k]);
    } else {
      assert Brand(ev, s'.entries[k]);
    }
  }

  lemma UnservedKept(c: Config, s: State, s': State, i: nat, ev: Event)
    requires Inv(c, s) && c.probeMode && SeedsSent(s) && UnservedWait(c, s)
    requires i < |s.threads| && Step(c, s, i, ev) == Some(s')
    ensures UnservedWait(c, s')
  {
    StepEntries(c, s, s', i, ev);
    NoGossipNow(c, s, i, ev);
    Facts(c, s);
    RoleAt(c, s, i);
    assert Owned(c, s);
    KnowThread(c, s, i);
    hide Inv, Owned, Step, ThreadOk, EntriesStep, SeedsSent;
    forall k | k in s'.entries && !Served(c, s'.entries[k]) ensures s'.entries[k].state == Queued {
      UnservedOne(c, s, s', i, ev, k);
    }
  }

  lemma NoGossipNow(c: Config, s: State, i: nat, ev: Event)
    requires c.probeMode && i < |s.threads| && Step(c, s, i, ev).Some?
    ensures !ev.Gossip?
  {
    hide Step;
    if ev.Gossip? {
      NoGossip(c, s, i, ev);
    }
  }

  lemma ProbeStep(c: Config, s: State, s': State, i: nat, ev: Event)
    requires Inv(c, s) && c.probeMode && ProbeInv(c, s) && i < |s.threads| && Step(c, s, i, ev) == Some(s')
    ensures ProbeInv(c, s')
  {
    hide Inv, Step, UnservedWait;
    UnservedKept(c, s, s', i, ev);
    if s.threads[0].pc.Seeding? {
      OnlyMainSeeds(c, s, i, ev);
      SeedingStep(c, s, s', ev);
    } else {
      Facts(c, s);
      RoleAt(c, s, i);
      RoleAt(c, s, 0);
      CrawlingStep(c, s, s', i, ev);
    }
  }

  // ---- whole runs ---------------------------------------------------------------------------------------------

  lemma InitProbe(c: Config)
    ensures ProbeInv(c, Init(c))
  {}

  lemma {:induction false} RunProbe(c: Config, s: State, schedule: seq<Choice>)
    requires ValidConfig(c) && c.probeMode && RunFrom(c, Init(c), schedule) == Some(s)
    ensures ProbeInv(c, s)
    decreases |schedule|
  {
    InitProbe(c);
    hide Inv, Step, ProbeInv, Init;
    if schedule != [] {
      var n := |schedule| - 1;
      var before := RunFrom(c, Init(c), schedule[..n]).value;
      RunProbe(c, before, schedule[..n]);
      InitInv(c);
      RunInv(c, Init(c), before, schedule[..n]);
      ProbeStep(c, before, s, schedule[n].thread, schedule[n].event);
    }
  }

  lemma OccursProbe(c: Config, s: State)
    requires ValidConfig(c) && c.probeMode && Occurs(c, s)
    ensures Inv(c, s) && ProbeInv(c, s)
  {
    hide Inv, ProbeInv;
    OccursInv(c, s);
    var schedule :| RunFrom(c, Init(c), schedule) == Some(s);
    RunProbe(c, s, schedule);
  }

  predicate Seeded(s: State) { |s.threads| > 0 && !s.threads[0].pc.Seeding? }

  lemma SeedsAreOver(c: Config, s: State, i: nat, ev: Event)
    requires i < |s.threads| && Seeded(s) && (s.threads[i].role.MainThread? ==> i == 0) && ev.Seed?
    ensures Step(c, s, i, ev) == None
  {
    hide WorkerStep;
    if s.threads[i].role.Worker? {
      WorkersTakeNoSeeds(c, s, i, s.threads[i].role.t, ev);
    }
  }

  lemma WorkersTakeNoSeeds(c: Config, s: State, i: nat, t: Transport, ev: Event)
    requires i < |s.threads| && ev.Seed?
    ensures WorkerStep(c, s, i, t, ev) == None
  {
    hide WorkerStep;
    if WorkerStep(c, s, i, t, ev).Some? {
      if s.threads[i].pc.Discovering? {
        NoSeedToDiscover(c, s, i, t, ev);
      } else {
        WorkerEvents(c, s, i, t, ev);
      }
    }
  }

  lemma NoSeedToDiscover(c: Config, s: State, i: nat, t: Transport, ev: Event)
    requires i < |s.threads| && s.threads[i].pc.Discovering? && ev.Seed?
    ensures WorkerStep(c, s, i, t, ev) == None
  {}

  /** Once seeding is over the probe knows the same addresses, on the same networks, for good. */
  lemma SeededStep(c: Config, s: State, s': State, i: nat, ev: Event)
    requires Inv(c, s) && ProbeInv(c, s) && c.probeMode && Seeded(s) && i < |s.threads| && Step(c, s, i, ev) == Some(s')
    ensures Seeded(s') && s'.entries.Keys == s.entries.Keys
    ensures forall k :: k in s.entries ==> s'.entries[k].network == s.entries[k].network
  {
    StepEntries(c, s, s', i, ev);
    NoGossipNow(c, s, i, ev);
    Facts(c, s);
    RoleAt(c, s, i);
    RoleAt(c, s, 0);
    CrawlingStep(c, s, s', i, ev);
    hide Inv, Step, EntryStep;
    if ev.Seed? {
      SeedsAreOver(c, s, i, ev);
    }
    forall k | k in s'.entries ensures k in s.entries {}
    forall k | k in s.entries ensures k in s'.entries && s'.entries[k].network == s.entries[k].network {
      EntryKeepsNetwork(s, i, ev, k, s.entries[k], s'.entries[k]);
    }
  }

  lemma EntryKeepsNetwork(s: State, i: nat, ev: Event, k: AddrKey, e: NodeEntry, e': NodeEntry)
    requires i < |s.threads| && EntryStep(s, i, ev, k, e, e')
    ensures e'.network == e.network
  {}

  lemma {:induction false} SeededRun(c: Config, start: State, s: State, more: seq<Choice>)
    requires ValidConfig(c) && c.probeMode && Occurs(c, start) && Seeded(start) && RunFrom(c, start, more) == Some(s)
    ensures Inv(c, s) && ProbeInv(c, s) && Seeded(s) && s.entries.Keys == start.entries.Keys
    ensures forall k :: k in s.entries ==> s.entries[k].network == start.entries[k].network
    decreases |more|
  {
    hide Inv, Step, ProbeInv, Seeded, Occurs;
    if more == [] {
      OccursProbe(c, start);
    } else {
      var n := |more| - 1;
      var before := RunFrom(c, start, more[..n]).value;
      SeededRun(c, start, before, more[..n]);
      SeededStep(c, before, s, more[n].thread, more[n].event);
      StepInv(c, before, s, more[n].thread, more[n].event);
      ProbeStep(c, before, s, more[n].thread, more[n].event);
    }
  }

  lemma {:induction false} OccursOn(c: Config, start: State, s: State, more: seq<Choice>)
    requires Occurs(c, start) && RunFrom(c, start, more) == Some(s)
    ensures Occurs(c, s)
    decreases |more|
  {
    hide Step, Init;
    if more != [] {
      var n := |more| - 1;
      var before := RunFrom(c, start, more[..n]).value;
      OccursOn(c, start, before, more[..n]);
      var schedule :| RunFrom(c, Init(c), schedule) == Some(before);
      var longer := schedule + [more[n]];
      assert longer[..|longer| - 1] == schedule;
      assert RunFrom(c, Init(c), longer) == Some(s);
    }
  }

  /** Every seed has workers for its network. */
  ghost predicate AllServed(c: Config, entries: Entries) { forall k :: k in entries ==> Served(c, entries[k]) }

  /** A probe whose seeds do not all have workers is never done: those without stay queued, and counted, in
      every state of every run after seeding, Ctrl+C or not. */
  lemma NeverDone(c: Config, start: State, s: State, more: seq<Choice>, k: AddrKey)
    requires ValidConfig(c) && c.probeMode && Occurs(c, start) && Seeded(start) && RunFrom(c, start, more) == Some(s)
    requires k in start.entries && !Served(c, start.entries[k])
    ensures k in s.entries && s.entries[k].state == Queued && (s.Running() ==> s.outstanding != 0)
  {
    SeededRun(c, start, s, more);
    OccursOn(c, start, s, more);
    hide Inv, Occurs;
    assert k in ActiveKeys(s);
    if s.Running() {
      ActiveOutstanding(c, s);
    }
  }

  lemma ActiveOutstanding(c: Config, s: State)
    requires ValidConfig(c) && Occurs(c, s) && s.Running() && ActiveKeys(s) != {}
    ensures s.outstanding != 0
  {
    hide Occurs;
    assert RunFrom(c, s, []) == Some(s);
    if s.outstanding == 0 {
      QuietForever(c, s, s, []);
    }
  }

  lemma ServedQueues(c: Config, s: State, t: Transport)
    requires Inv(c, s) && AllServed(c, s.entries) && s.queues.At(t).items != []
    ensures t in c.pools
  {
    assert Owned(c, s);
    assert QueuedAt(s.entries, s.queues.At(t).items[0], t);
  }

  /** A probe that comes to a stop has processed everything, and all its workers have returned, if and only if
      every seed it was given has workers: `start` is any state after seeding, before or during the run. */
  lemma ProbeEndsExactly(c: Config, start: State, s: State, more: seq<Choice>)
    requires ValidConfig(c) && c.probeMode && Occurs(c, start) && Seeded(start) && RunFrom(c, start, more) == Some(s)
    requires s.Running() && Stuck(c, s) && !s.shutdown
    ensures s.outstanding == 0 <==> AllServed(c, start.entries)
    ensures AllServed(c, start.entries) ==> |s.threads| == 2 + |c.pools| && AllWorkersLeft(c, s) && ActiveKeys(s) == {}
  {
    SeededRun(c, start, s, more);
    OccursOn(c, start, s, more);
    hide Inv, Occurs, ProbeInv, Stuck, ActiveKeys;
    if AllServed(c, start.entries) {
      assert AllServed(c, s.entries);
      forall t | s.queues.At(t).items != [] ensures t in c.pools {
        ServedQueues(c, s, t);
      }
      NeverStuckEarly(c, s);
    } else {
      var k :| k in start.entries && !Served(c, start.entries[k]);
      NeverDone(c, start, s, more, k);
    }
  }

  // ---- when the workers return ---------------------------------------------------------------------------------

  /** Not on the way to discarding an item for want of a node slot. */
  predicate Mild(pc: Pc) {
    !pc.Refused? && !(pc.Finishing? && pc.terminal == BudgetDiscarded) && !(pc.Decrementing? && pc.refused) &&
    !((pc.Requeueing? || pc.Resending?) && pc.terminal == BudgetDiscarded)
  }

  ghost predicate HasUnserved(c: Config, s: State) { !AllServed(c, s.entries) }

  /** Without a node limit nothing is refused; and while an unserved address waits, nobody closes a queue but for
      Ctrl+C. */
  ghost predicate StaysOpen(c: Config, s: State) {
    (forall i :: 0 <= i < |s.threads| ==> Mild(s.threads[i].pc) && (s.threads[i].pc.Interrupted? ==> s.shutdown)) &&
    (HasUnserved(c, s) && !s.shutdown ==>
      (forall t :: s.queues.At(t).open) && forall i :: 0 <= i < |s.threads| ==> !s.threads[i].pc.Closing?)
  }

  lemma AdvanceMild(c: Config, e: NodeEntry, pc: Pc, ev: Event)
    requires Advance(c, e, pc, ev).Some? && Mild(pc)
    ensures Mild(Advance(c, e, pc, ev).value.1) && KeyOf(Advance(c, e, pc, ev).value.1).Some?
  {}

  lemma NoteMild(c: Config, e: NodeEntry, k: AddrKey, ev: Event)
    requires Note(c, e, k, ev).Some?
    ensures Mild(Note(c, e, k, ev).value.1) && KeyOf(Note(c, e, k, ev).value.1).Some?
  {}

  /** What a worker does to the queues and to its own place: only a last decrement, or a refusal, turns it to
      closing. */
  ghost predicate MildStep(s: State, s': State, i: nat) {
    i < |s.threads| == |s'.threads| && (forall j :: 0 <= j < |s.threads| && j != i ==> s'.threads[j] == s.threads[j]) &&
    Mild(s'.threads[i].pc) && !s'.threads[i].pc.Interrupted? &&
    (forall t :: s'.queues.At(t).open == s.queues.At(t).open) && s'.shutdown == s.shutdown &&
    (s'.threads[i].pc.Closing? ==> s.threads[i].pc.Decrementing? && s.outstanding == 1)
  }

  lemma ProcessMild(c: Config, s: State, i: nat, ev: Event)
    requires i < |s.threads| && Mild(s.threads[i].pc) && Process(c, s, i, ev).Some?
    ensures MildStep(s, Process(c, s, i, ev).value, i)
  {
    hide Advance;
    AdvanceMild(c, s.entries[s.threads[i].pc.key], s.threads[i].pc, ev);
  }

  lemma DiscoverMild(c: Config, s: State, i: nat, ev: Event)
    requires c.probeMode && i < |s.threads| && s.threads[i].pc.Discovering? && Discover(c, s, i, ev).Some?
    ensures MildStep(s, Discover(c, s, i, ev).value, i)
  {
    hide Note;
    NoteMild(c, s.entries[s.threads[i].pc.key], s.threads[i].pc.key, ev);
  }

  lemma ReceiveMild(s: State, i: nat, t: Transport, late: bool)
    requires i < |s.threads| && Receive(s, i, t, late).Some?
    ensures MildStep(s, Receive(s, i, t, late).value, i)
  {}

  lemma FinishMild(s: State, i: nat, k: AddrKey, terminal: NodeState, reason: Option<FailKind>)
    requires i < |s.threads| && terminal != BudgetDiscarded
    ensures MildStep(s, Finish(s, i, k, terminal, reason), i)
  {}

  lemma OwnMild(c: Config, s: State, s': State, i: nat, t: Transport, ev: Event)
    requires c.maxNodes == None && i < |s.threads| && Mild(s.threads[i].pc) && WorkerStep(c, s, i, t, ev) == Some(s')
    requires var pc := s.threads[i].pc; pc.Received? || pc.Decrementing? || pc.Resending?
    ensures MildStep(s, s', i)
  {
    hide Process, Receive, Discover, Finish, Queues.TrySend;
    if s.threads[i].pc.Resending? && s.queues.TrySend(t, s.threads[i].pc.key, c.maxAddresses).Some? {
      SendKeepsOpen(s.queues, t, s.threads[i].pc.key, c.maxAddresses);
    }
  }

  lemma WorkerMild(c: Config, s: State, s': State, i: nat, t: Transport, ev: Event)
    requires c.probeMode && c.maxNodes == None && i < |s.threads| && Mild(s.threads[i].pc)
    requires WorkerStep(c, s, i, t, ev) == Some(s')
    ensures MildStep(s, s', i)
  {
    hide Process, Receive, Discover, Finish, Queues.TrySend, MildStep;
    match s.threads[i].pc
    case Idle => ReceiveMild(s, i, t, ev == Late);
    case Finishing(k, terminal, reason) => FinishMild(s, i, k, terminal, reason);
    case Discovering(_) => DiscoverMild(c, s, i, ev);
    case Received(_) => OwnMild(c, s, s', i, t, ev);
    case Decrementing(_, _) => OwnMild(c, s, s', i, t, ev);
    case Resending(_, _, _) => OwnMild(c, s, s', i, t, ev);
    case _ => ProcessMild(c, s, i, ev);
  }

  /** Seeds still to come, or just over: what was observed is counted. */
  lemma SeedsOutstanding(c: Config, s: State)
    requires ValidConfig(c) && Occurs(c, s) && s.threads != [] && s.threads[0].pc.Seeding? &&
        s.threads[0].call == NoCall
    requires ActiveKeys(s) != {}
    ensures s.outstanding != 0
  {
    hide Occurs, Inv, ActiveKeys;
    OccursInv(c, s);
    OutstandingExact(c, s);
    Facts(c, s);
    forall j | 0 <= j < |s.threads| ensures Waiting(s.threads[j]) == 0 {
      if j > 0 {
        assert AtRest(s.threads[j]);
      }
    }
    Tally.TotalZero(s.threads, Waiting);
  }

  lemma UnservedActive(c: Config, s: State)
    requires ProbeInv(c, s) && HasUnserved(c, s)
    ensures ActiveKeys(s) != {}
  {
    var k :| k in s.entries && !Served(c, s.entries[k]);
    assert k in ActiveKeys(s);
  }

  lemma SameUnserved(c: Config, s: State, s': State)
    requires s'.entries.Keys == s.entries.Keys
    requires forall k :: k in s.entries ==> s'.entries[k].network == s.entries[k].network
    ensures HasUnserved(c, s') <==> HasUnserved(c, s)
  {
    assert forall k :: k in s'.entries ==> (Served(c, s'.entries[k]) <==> Served(c, s.entries[k]));
  }

  /** The main thread, leaving the seeding. */
  lemma LeaveSeeding(c: Config, s: State, s': State, ev: Event)
    requires s.threads != [] && s.threads[0].pc.Seeding? && s.threads[0].role == MainThread
    requires Step(c, s, 0, ev) == Some(s') && !s'.threads[0].pc.Seeding?
    ensures s.threads[0].call == NoCall && s'.entries == s.entries && s'.queues == s.queues && s'.shutdown == s.shutdown
    ensures s'.threads[0].pc == Spawned || (s'.threads[0].pc.Closing? && s.outstanding == 0)
  {
    hide Observe, Queues.TrySend;
  }

  lemma KeepSeeding(c: Config, s: State, s': State, ev: Event)
    requires s.threads != [] && s.threads[0].role == MainThread && s.threads[0].pc.Seeding?
    requires Step(c, s, 0, ev) == Some(s')
    ensures s'.threads != [] && Mild(s'.threads[0].pc) && !s'.threads[0].pc.Interrupted? && s'.shutdown == s.shutdown
  {
    hide Observe, Queues.TrySend;
  }

  lemma OpenSeeding(c: Config, s: State, s': State, ev: Event)
    requires ValidConfig(c) && c.probeMode && Occurs(c, s) && Inv(c, s) && ProbeInv(c, s) && StaysOpen(c, s)
    requires s.threads != [] && s.threads[0].pc.Seeding? && s.threads[0].role == MainThread
    requires Step(c, s, 0, ev) == Some(s')
    ensures StaysOpen(c, s')
  {
    hide Occurs, Step, UnservedWait, HasUnserved;
    SeedingStep(c, s, s', ev);
    KeepSeeding(c, s, s', ev);
    Facts(c, s);
    hide Inv;
    forall j | 1 <= j < |s.threads| ensures !s.threads[j].pc.Closing? && !s.threads[j].pc.Interrupted? {
      assert AtRest(s.threads[j]);
    }
    if !s'.threads[0].pc.Seeding? {
      LeaveSeeding(c, s, s', ev);
      SameUnserved(c, s, s');
      if HasUnserved(c, s) {
        UnservedActive(c, s);
        SeedsOutstanding(c, s);
      }
    }
  }

  /** The other threads, once seeding is over. */
  lemma ControlOpen(c: Config, s: State, s': State, i: nat, ev: Event)
    requires i < |s.threads| && s.threads[i].call == NoCall && !s.threads[i].pc.Seeding?
    requires s.threads[i].pc.Closing? || !s.threads[i].role.Worker?
    requires Step(c, s, i, ev) == Some(s')
    ensures |s'.threads| == |s.threads| && forall j :: 0 <= j < |s.threads| && j != i ==> s'.threads[j] == s.threads[j]
    ensures Mild(s'.threads[i].pc) && (s'.threads[i].pc.Interrupted? ==> s'.shutdown)
    ensures s.shutdown ==> s'.shutdown
    ensures s'.threads[i].pc.Closing? ==> s.threads[i].pc.Closing? || s.threads[i].pc.Interrupted?
    ensures !s.threads[i].pc.Closing? ==> s'.queues == s.queues
  {
    hide WorkerStep, EnqueueStep;
  }

  lemma OpenCrawling(c: Config, s: State, s': State, i: nat, ev: Event)
    requires ValidConfig(c) && c.probeMode && c.maxNodes == None && Occurs(c, s) && Inv(c, s) && ProbeInv(c, s)
    requires StaysOpen(c, s) && Seeded(s) && i < |s.threads| && Step(c, s, i, ev) == Some(s')
    ensures StaysOpen(c, s')
  {
    hide Inv, Occurs, ProbeInv, HasUnserved, MildStep, Step;
    SeededStep(c, s, s', i, ev);
    SameUnserved(c, s, s');
    CallFree(c, s, i);
    if s.threads[i].role.Worker? && !s.threads[i].pc.Closing? {
      AsWorker(c, s, s', i, ev);
      WorkerMild(c, s, s', i, s.threads[i].role.t, ev);
      WorkerOpen(c, s, s', i);
    } else {
      ControlOpen(c, s, s', i, ev);
      hide Mild;
    }
  }

  lemma CallFree(c: Config, s: State, i: nat)
    requires Inv(c, s) && ProbeInv(c, s) && Seeded(s) && i < |s.threads|
    ensures s.threads[i].call == NoCall && !s.threads[i].pc.Seeding?
  {
    hide Inv, UnservedWait;
    Facts(c, s);
    RoleAt(c, s, 0);
    RoleAt(c, s, i);
  }

  lemma AsWorker(c: Config, s: State, s': State, i: nat, ev: Event)
    requires i < |s.threads| && s.threads[i].call == NoCall && s.threads[i].role.Worker? && !s.threads[i].pc.Closing?
    requires Step(c, s, i, ev) == Some(s')
    ensures WorkerStep(c, s, i, s.threads[i].role.t, ev) == Some(s')
  {
    hide WorkerStep;
  }

  lemma WorkerOpen(c: Config, s: State, s': State, i: nat)
    requires ValidConfig(c) && Occurs(c, s) && ProbeInv(c, s) && StaysOpen(c, s) && MildStep(s, s', i)
    requires HasUnserved(c, s') <==> HasUnserved(c, s)
    ensures StaysOpen(c, s')
  {
    hide Occurs, HasUnserved, Mild, ProbeInv;
    if s'.threads[i].pc.Closing? && HasUnserved(c, s) {
      LastFinisher(c, s, i);
      UnservedActive(c, s);
    }
  }

  lemma {:induction false} RunOpen(c: Config, s: State, schedule: seq<Choice>)
    requires ValidConfig(c) && c.probeMode && c.maxNodes == None && RunFrom(c, Init(c), schedule) == Some(s)
    ensures StaysOpen(c, s)
    decreases |schedule|
  {
    if schedule == [] {
      InitOpen(c);
    } else {
      hide Inv, Step, ProbeInv, Init, StaysOpen, Occurs;
      var n := |schedule| - 1;
      var before := RunFrom(c, Init(c), schedule[..n]).value;
      RunOpen(c, before, schedule[..n]);
      assert Occurs(c, before) by { RunOccurs(c, before, schedule[..n]); }
      OccursProbe(c, before);
      OpenStep(c, before, s, schedule[n].thread, schedule[n].event);
    }
  }

  lemma InitOpen(c: Config)
    ensures StaysOpen(c, Init(c))
  {}

  lemma RunOccurs(c: Config, s: State, schedule: seq<Choice>)
    requires RunFrom(c, Init(c), schedule) == Some(s)
    ensures Occurs(c, s)
  {}

  lemma OpenStep(c: Config, s: State, s': State, i: nat, ev: Event)
    requires ValidConfig(c) && c.probeMode && c.maxNodes == None && Occurs(c, s) && Inv(c, s) && ProbeInv(c, s)
    requires StaysOpen(c, s) && i < |s.threads| && Step(c, s, i, ev) == Some(s')
    ensures StaysOpen(c, s')
  {
    hide Inv, Step, ProbeInv, StaysOpen, Occurs;
    if s.threads[0].pc.Seeding? {
      OnlyMainSeeds(c, s, i, ev);
      OpenSeeding(c, s, s', ev);
    } else {
      OpenCrawling(c, s, s', i, ev);
    }
  }

  /** With no node limit and at least one worker, a probe that comes to a stop without Ctrl+C has all its workers back
      if and only if every seed has workers: otherwise those it has wait for ever. */
  lemma WorkersReturnExactly(c: Config, start: State, s: State, more: seq<Choice>)
    requires ValidConfig(c) && c.probeMode && c.maxNodes == None && c.pools != []
    requires Occurs(c, start) && Seeded(start) && RunFrom(c, start, more) == Some(s)
    requires s.Running() && Stuck(c, s) && !s.shutdown
    ensures |s.threads| == 2 + |c.pools|
    ensures AllWorkersLeft(c, s) <==> AllServed(c, start.entries)
  {
    ProbeEndsExactly(c, start, s, more);
    SeededRun(c, start, s, more);
    OccursOn(c, start, s, more);
    hide Inv, ProbeInv, Stuck, ActiveKeys, StaysOpen;
    Facts(c, s);
    SameUnserved(c, start, s);
    var schedule :| RunFrom(c, Init(c), schedule) == Some(s);
    RunOpen(c, s, schedule);
    hide RunFrom, Init, Occurs;
    if HasUnserved(c, s) {
      SomebodyWaits(c, s);
    }
  }

  lemma SomebodyWaits(c: Config, s: State)
    requires Layout(c, s) && Exits(s) && StaysOpen(c, s) && HasUnserved(c, s) && !s.shutdown && c.pools != []
    ensures !AllWorkersLeft(c, s)
  {
    hide HasUnserved, Mild;
    assert s.threads[2] == s.threads[2 + 0];
    assert s.threads[2].pc != Exited;
  }

  // ---- a probe that never ends ------------------------------------------------------------------------------------

  /** Whatever the settings, one seed without workers is enough for a run that stops short: the address waits in a
      queue nobody serves, every worker waits for the queues to close, and no thread can move. */
  lemma ProbeHangs(c: Config, k: AddrKey, network: NetworkType) returns (s: State)
    requires ValidConfig(c) && c.probeMode && !c.filterSeeds && network.Carrier() !in c.pools
    ensures Occurs(c, s) && s.Running() && !s.shutdown && Stuck(c, s)
    ensures s.outstanding == 1 && k in s.entries && s.entries[k].network == network && s.entries[k].state == Queued
    ensures |s.threads| == 2 + |c.pools| && forall i :: 2 <= i < |s.threads| ==> s.threads[i].pc == Idle
  {
    hide Step, Occurs;
    var start := Init(c);
    var entries: Entries := map[k := NewEntry(network, 0, Queued)];
    var queues := start.queues.TrySend(network.Carrier(), k, c.maxAddresses).value;
    var sent := start.(entries := entries, outstanding := 1, queues := queues);
    s := sent.Go(0, Spawned);
    SeedOne(c, k, network, entries, sent, queues);
    RunStarts(c, sent);
    StepOccurs(c, sent, s, 0, SeedsDone);
    SentQueues(start.queues, network.Carrier(), k, c.maxAddresses);
    IdlersStuck(c, s, network.Carrier());
  }

  /** With something outstanding, the pools are spawned and the queues stay open. */
  lemma RunStarts(c: Config, s: State)
    requires |s.threads| > 0 && s.threads[0] == Thread(MainThread, Seeding, NoCall) && s.outstanding != 0
    ensures Step(c, s, 0, SeedsDone) == Some(s.Go(0, Spawned))
  {}

  lemma SentQueues(qs: Queues, t: Transport, k: AddrKey, capacity: nat)
    requires qs.TrySend(t, k, capacity).Some?
    ensures forall u :: qs.TrySend(t, k, capacity).value.At(u).open == qs.At(u).open
    ensures forall u :: u != t ==> qs.TrySend(t, k, capacity).value.At(u).items == qs.At(u).items
  {}

  /** One seed observed, counted and sent. */
  lemma SeedOne(c: Config, k: AddrKey, network: NetworkType, entries: Entries, sent: State, queues: Queues)
    requires ValidConfig(c) && !c.filterSeeds && entries == map[k := NewEntry(network, 0, Queued)]
    requires Init(c).queues.TrySend(network.Carrier(), k, c.maxAddresses) == Some(queues)
    requires sent == Init(c).(entries := entries, outstanding := 1, queues := queues)
    ensures Occurs(c, sent)
  {
    var start := Init(c);
    var seed := Seed(k, network, 0);
    var marked := start.(entries := entries).InCall(0, Marked(k));
    var counted := start.(entries := entries, outstanding := 1).InCall(0, Counted(k));
    Recalled(start, Marked(k), Counted(k));
    Recalled(start, Counted(k), NoCall);
    assert Step(c, start, 0, seed) == Some(marked);
    assert EnqueueStep(c, marked, 0) == counted;
    assert EnqueueStep(c, counted, 0) == sent by { hide Queues.TrySend; }
    hide EnqueueStep, Occurs;
    assert Step(c, marked, 0, Tau) == Some(counted) && Step(c, counted, 0, Tau) == Some(sent);
    hide Step;
    StartOccurs(c);
    StepOccurs(c, start, marked, 0, seed);
    StepOccurs(c, marked, counted, 0, Tau);
    StepOccurs(c, counted, sent, 0, Tau);
  }

  lemma Recalled(start: State, call: Call, next: Call)
    requires |start.threads| > 0 && start.threads[0].call == NoCall
    ensures start.InCall(0, call).InCall(0, next).threads == start.InCall(0, next).threads
    ensures start.InCall(0, NoCall).threads == start.threads
  {}

  lemma StartOccurs(c: Config)
    ensures Occurs(c, Init(c))
  {
    assert RunFrom(c, Init(c), []) == Some(Init(c));
  }

  lemma StepOccurs(c: Config, s: State, s': State, i: nat, ev: Event)
    requires Occurs(c, s) && i < |s.threads| && Step(c, s, i, ev) == Some(s')
    ensures Occurs(c, s')
  {
    hide Step, Occurs;
    var more := [Choice(i, ev)];
    assert more[..0] == [];
    assert RunFrom(c, s, more[..0]) == Some(s);
    assert RunFrom(c, s, more) == Some(s');
    OccursOn(c, s, s', more);
  }

  lemma IdlersStuck(c: Config, s: State, unserved: Transport)
    requires |s.threads| == 2 + |c.pools| && s.threads[0] == Thread(MainThread, Spawned, NoCall)
    requires s.threads[1] == Thread(SignalThread, AwaitSignal, NoCall)
    requires forall i :: 2 <= i < |s.threads| ==> s.threads[i] == Thread(Worker(c.pools[i - 2]), Idle, NoCall)
    requires unserved !in c.pools && !s.shutdown
    requires forall t :: s.queues.At(t).open && (t != unserved ==> s.queues.At(t).items == [])
    ensures Stuck(c, s)
  {
    forall i, ev | 0 <= i < |s.threads| && ev != Interrupt ensures Step(c, s, i, ev) == None {
      if i >= 2 {
        assert c.pools[i - 2] in c.pools;
      }
    }
  }
}
