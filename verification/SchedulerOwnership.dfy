/** Ownership over whole runs: each code path of each thread, one lemma a path. */
module SchedulerOwnership {
  import opened Base
  import opened Network
  import opened NodeStore
  import opened Scheduler
  import opened SchedulerInvariant
  import opened SchedulerSteps
  import opened Tally

  ghost predicate Budget(c: Config, s: State) { |s.entries| <= c.maxAddresses }

  /** A thread that holds a key finds room for it in every queue. */
  lemma RoomInQueues(c: Config, s: State, i: nat, k: AddrKey, t: Transport)
    requires Owned(c, s) && Budget(c, s) && i < |s.threads| && k in Held(s.threads[i])
    ensures |s.queues.At(t).items| < c.maxAddresses
  {
    hide EntryOk, ThreadOk, Held;
    TokensFit(c, s);
    TokensMoved(s, s, i, s.threads[i]);
    GatherUpdate(s.threads, i, s.threads[i], Held);
    assert k in Gather(s.threads, Held);
    assert |Gather(s.threads, Held)| >= 1;
    assert |InQueues(s.queues)| == s.queues.Size();
  }

  lemma TokensFit(c: Config, s: State)
    requires Owned(c, s)
    ensures |Tokens(s)| <= |s.entries|
  {
    hide EntryOk, ThreadOk, Held, Tokens;
    forall k | k in Tokens(s) ensures k in s.entries.Keys {
      TokenKnown(c, s, k);
    }
    DistinctSize(Tokens(s), s.entries.Keys);
  }

  lemma KnowThread(c: Config, s: State, i: nat)
    requires Owned(c, s) && i < |s.threads|
    ensures ThreadOk(c, s.queues, s.entries, s.threads[i])
    ensures forall k :: k in Held(s.threads[i]) ==> k in s.entries && EntryOk(c, s.queues, s.entries[k])
  {
    hide EntryOk, PcOk;
    HeldKnown(c, s.queues, s.entries, s.threads[i]);
  }

  /** An `enqueue` frame moves on, or returns, without an edit. */
  lemma CallAdvance(c: Config, qs: Queues, entries: Entries, th: Thread, call: Call)
    requires ThreadOk(c, qs, entries, th) && th.call != NoCall
    requires call == NoCall || (call.child == th.call.child && !call.Discarded? && !th.call.Discarded?)
    ensures ThreadOk(c, qs, entries, th.(call := call))
    ensures Held(th) == Held(th.(call := call)) + (if call == NoCall then multiset{th.call.child} else multiset{})
    ensures th.call.child in Held(th) && th.call.child in entries
    ensures entries[th.call.child].state == if th.call.Discarded? then BudgetDiscarded else Queued
  {
    hide PcOk, EntryOk, RoleOk;
    assert RoleOk(th.(call := call)) by { RoleAdvance(th, call); }
  }

  lemma RoleAdvance(th: Thread, call: Call)
    requires RoleOk(th) && th.call != NoCall
    ensures RoleOk(th.(call := call))
  {}

  lemma EnqueueOwned(c: Config, s: State, i: nat)
    requires Owned(c, s) && Budget(c, s) && i < |s.threads| && s.threads[i].call != NoCall
    ensures Owned(c, EnqueueStep(c, s, i))
  {
    hide Owned, EntryOk, ThreadOk, Held, Tokens;
    var th := s.threads[i];
    var s' := EnqueueStep(c, s, i);
    var k := th.call.child;
    KnowThread(c, s, i);
    match th.call {
      case Marked(_) =>
        CallAdvance(c, s.queues, s.entries, th, Counted(k));
        ControlStep(c, s, s', i, th.(call := Counted(k)));
      case Counted(_) =>
        EnqueueSend(c, s, i);
      case Rejected(_) =>
        EnqueueDiscard(c, s, i);
      case Discarded(_) =>
        CallAdvance(c, s.queues, s.entries, th, NoCall);
        ReleaseStep(c, s, s', i, th.(call := NoCall), k);
    }
  }

  lemma EnqueueSend(c: Config, s: State, i: nat)
    requires Owned(c, s) && Budget(c, s) && i < |s.threads| && s.threads[i].call.Counted?
    ensures Owned(c, EnqueueStep(c, s, i))
  {
    hide Owned, EntryOk, ThreadOk, Held, Tokens;
    var th := s.threads[i];
    var s' := EnqueueStep(c, s, i);
    var k := th.call.child;
    KnowThread(c, s, i);
    CallAdvance(c, s.queues, s.entries, th, NoCall);
    var t := s.entries[k].network.Carrier();
    RoomInQueues(c, s, i, k, t);
    if s.queues.At(t).open {
      SendStep(c, s, s', i, th.(call := NoCall), k, t);
    } else {
      CallAdvance(c, s.queues, s.entries, th, Rejected(k));
      ControlStep(c, s, s', i, th.(call := Rejected(k)));
    }
  }

  lemma EnqueueDiscard(c: Config, s: State, i: nat)
    requires Owned(c, s) && i < |s.threads| && s.threads[i].call.Rejected?
    ensures Owned(c, EnqueueStep(c, s, i))
  {
    hide Owned, EntryOk, ThreadOk, Tokens;
    var th := s.threads[i];
    var s' := EnqueueStep(c, s, i);
    var k := th.call.child;
    KnowThread(c, s, i);
    CallAdvance(c, s.queues, s.entries, th, NoCall);
    DiscardOk(c, s.queues, s.entries[k]);
    OnlyChild(c, s, i);
    ChildEdited(c, s.queues, s.entries, th, s.entries[k].(state := BudgetDiscarded));
    LocalStep(c, s, s', i, th.(call := Discarded(k)), k);
  }

  lemma DiscardOk(c: Config, qs: Queues, e: NodeEntry)
    requires e.state == Queued && EntryOk(c, qs, e)
    ensures EntryOk(c, qs, e.(state := BudgetDiscarded))
  {}

  /** A thread never holds its child under its program counter as well. */
  lemma OnlyChild(c: Config, s: State, i: nat)
    requires Owned(c, s) && i < |s.threads| && s.threads[i].call != NoCall
    ensures s.threads[i].call.child !in PcHeld(s.threads[i].pc)
  {
    hide EntryOk, ThreadOk;
    var k := s.threads[i].call.child;
    GatherUpdate(s.threads, i, s.threads[i], Held);
    assert Tokens(s)[k] <= 1;
    assert Held(s.threads[i])[k] <= 1;
  }

  lemma ChildEdited(c: Config, qs: Queues, entries: Entries, th: Thread, e: NodeEntry)
    requires ThreadOk(c, qs, entries, th) && th.call.Rejected? && th.call.child !in PcHeld(th.pc)
    requires e.state == BudgetDiscarded
    ensures ThreadOk(c, qs, entries[th.call.child := e], th.(call := Discarded(th.call.child)))
  {}

  // ---- one attempt --------------------------------------------------------------------------

  /** A lost attempt leaves the entry between attempts. */
  lemma LoseAttempt(c: Config, e: NodeEntry, outcome: AttemptOutcome, kind: FailKind)
    requires During(c, e, AttemptStarted) || During(c, e, AttemptConnected) || During(c, e, AttemptVersionSent)
    requires e.handshake == None && Lost(Attempt(0, outcome, Some(kind)))
    requires if outcome == AttemptConnectFailed
             then e.stats.timeConnectMs.Some? <==> LinkedBefore(e, |e.attempts| - 1)
             else e.stats.timeConnectMs.Some?
    ensures var e' := LastAttempt(e, outcome, Some(kind));
            Between(c, e') && e'.attempts != [] && Last(e').outcome == outcome && Last(e').failure == Some(kind) &&
            Numbered(e') && |e'.attempts| <= c.handshakeAttempts
  {
    var e' := LastAttempt(e, outcome, Some(kind));
    var n := |e.attempts| - 1;
    assert forall i :: 0 <= i < n ==> e'.attempts[i] == e.attempts[i];
    assert e'.attempts[n].outcome == outcome;
    if LinkedBefore(e, n) {
      var i :| 0 <= i < n && e.attempts[i].outcome != AttemptConnectFailed;
      assert e'.attempts[i].outcome != AttemptConnectFailed;
    }
    if LinkedBefore(e', n + 1) && outcome == AttemptConnectFailed {
      var i :| 0 <= i < n + 1 && e'.attempts[i].outcome != AttemptConnectFailed;
      assert e.attempts[i].outcome != AttemptConnectFailed;
    }
  }

  lemma ReachAttempt(c: Config, e: NodeEntry, was: AttemptOutcome, outcome: AttemptOutcome)
    requires During(c, e, was)
    ensures var e' := LastAttempt(e, outcome, None);
            During(c, e', outcome) && Numbered(e') && |e'.attempts| <= c.handshakeAttempts
  {}

  lemma BeginOk(c: Config, e: NodeEntry)
    requires Between(c, e) && |e.attempts| < c.handshakeAttempts
    ensures var e' := BeginAttempt(e);
            During(c, e', AttemptStarted) && Numbered(e') && |e'.attempts| <= c.handshakeAttempts &&
            (e'.stats.timeConnectMs.Some? <==> LinkedBefore(e', |e'.attempts| - 1))
  {
    var e' := BeginAttempt(e);
    assert forall i :: 0 <= i < |e.attempts| ==> e'.attempts[i] == e.attempts[i];
    if LinkedBefore(e, |e.attempts|) {
      var i :| 0 <= i < |e.attempts| && e.attempts[i].outcome != AttemptConnectFailed;
      assert e'.attempts[i].outcome != AttemptConnectFailed;
    }
  }

  ghost predicate Fits(c: Config, qs: Queues, e: NodeEntry, pc: Pc, e': NodeEntry, pc': Pc) {
    EntryOk(c, qs, e') && KeyOf(pc').Some? && KeyOf(pc') == KeyOf(pc) && PcOk(c, qs, e', pc') && e'.network == e.network
  }

  lemma LossOk(c: Config, qs: Queues, e: NodeEntry, pc: Pc, ev: Event)
    requires pc.Connecting? || pc.SendingVersion? || pc.AwaitingPeer?
    requires ev.NoLink? || ev.PeerFailed? || ev.PeerSilent?
    requires PcOk(c, qs, e, pc) && Advance(c, e, pc, ev).Some?
    ensures var (e', pc') := Advance(c, e, pc, ev).value; Fits(c, qs, e, pc, e', pc')
  {
    hide Between, During, Numbered;
    match ev
    case NoLink(kind) => LoseAttempt(c, e, AttemptConnectFailed, kind);
    case PeerFailed(kind) => LoseAttempt(c, e, AttemptFailed, kind);
    case _ => LoseAttempt(c, e, AttemptTimedOut, FailKind.HandshakeTimeout);
  }

  lemma ProgressOk(c: Config, qs: Queues, e: NodeEntry, pc: Pc, ev: Event)
    requires pc.Started? || (pc.Connecting? && ev.Link?) || pc.Connected? ||
             (pc.SendingVersion? && ev.VersionWritten?) ||
             (pc.AwaitingPeer? && ev.PeerVersion?)
    requires PcOk(c, qs, e, pc) && Advance(c, e, pc, ev).Some?
    ensures var (e', pc') := Advance(c, e, pc, ev).value; Fits(c, qs, e, pc, e', pc')
  {
    match pc
    case Started(_) => BeginOk(c, e);
    case Connected(_) => ReachAttempt(c, e, AttemptStarted, AttemptConnected);
    case SendingVersion(_) => ReachAttempt(c, e, AttemptConnected, AttemptVersionSent);
    case _ =>
  }

  lemma SettleOk(c: Config, qs: Queues, e: NodeEntry, pc: Pc, ev: Event)
    requires pc.ConnectLost? || pc.HandshakeLost?
    requires PcOk(c, qs, e, pc) && Advance(c, e, pc, ev).Some?
    ensures var (e', pc') := Advance(c, e, pc, ev).value; Fits(c, qs, e, pc, e', pc')
  {
    if pc.HandshakeLost? {
      assert e.attempts[|e.attempts| - 1].outcome != AttemptConnectFailed;
      assert LinkedBefore(e, |e.attempts|);
    }
  }

  /** Each move of an attempt leaves the entry as the next program point expects it. */
  lemma AdvanceOk(c: Config, qs: Queues, e: NodeEntry, pc: Pc, ev: Event)
    requires KeyOf(pc).Some? && PcOk(c, qs, e, pc) && Advance(c, e, pc, ev).Some?
    ensures var (e', pc') := Advance(c, e, pc, ev).value; Fits(c, qs, e, pc, e', pc')
  {
    hide During, Between, Fits;
    if pc.ConnectLost? || pc.HandshakeLost? {
      SettleOk(c, qs, e, pc, ev);
    } else if ev.NoLink? || ev.PeerFailed? || ev.PeerSilent? {
      LossOk(c, qs, e, pc, ev);
    } else if pc.Reserved? || pc.Requeueing? || pc.Collected? {
      SwitchOk(c, qs, e, pc, ev);
    } else {
      ProgressOk(c, qs, e, pc, ev);
    }
  }

  lemma SwitchOk(c: Config, qs: Queues, e: NodeEntry, pc: Pc, ev: Event)
    requires pc.Reserved? || pc.Requeueing? || pc.Collected?
    requires PcOk(c, qs, e, pc) && Advance(c, e, pc, ev).Some?
    ensures var (e', pc') := Advance(c, e, pc, ev).value; Fits(c, qs, e, pc, e', pc')
  {
    if pc.Collected? {
      ReachAttempt(c, e, AttemptVersionSent, AttemptComplete);
    }
  }

  // ---- the worker's own address ---------------------------------------------------------------

  /** A worker moves on with its address, perhaps editing the entry. */
  lemma WorkStep(c: Config, s: State, i: nat, k: AddrKey, e': NodeEntry, pc': Pc)
    requires Owned(c, s) && i < |s.threads| && s.threads[i].call == NoCall && k in s.entries
    requires KeyOf(s.threads[i].pc) == Some(k) == KeyOf(pc')
    requires EntryOk(c, s.queues, e') && PcOk(c, s.queues, e', pc') && e'.network == s.entries[k].network
    ensures Owned(c, s.Put(k, e').Go(i, pc')) && Tokens(s.Put(k, e').Go(i, pc')) == Tokens(s)
  {
    hide Owned, EntryOk, PcOk, Tokens;
    var th := s.threads[i];
    var s' := s.Put(k, e').Go(i, pc');
    KnowThread(c, s, i);
    LocalStep(c, s, s', i, th.(pc := pc'), k);
  }

  lemma ProcessOwned(c: Config, s: State, i: nat, ev: Event)
    requires Owned(c, s) && i < |s.threads| && s.threads[i].call == NoCall && Process(c, s, i, ev).Some?
    ensures Owned(c, Process(c, s, i, ev).value)
  {
    hide Owned, EntryOk, PcOk, Advance;
    var pc := s.threads[i].pc;
    KnowThread(c, s, i);
    AdvanceOk(c, s.queues, s.entries[pc.key], pc, ev);
    var (e', pc') := Advance(c, s.entries[pc.key], pc, ev).value;
    WorkStep(c, s, i, pc.key, e', pc');
  }

  /** Counters and flags play no part in ownership. */
  lemma SameOwners(c: Config, s: State, s': State)
    requires Owned(c, s) && s'.entries == s.entries && s'.queues == s.queues && s'.threads == s.threads
    ensures Owned(c, s') && Tokens(s') == Tokens(s)
  {
    hide EntryOk, ThreadOk, QueuedAt, Gather, InQueues;
    assert Tokens(s') == Tokens(s);
    assert Unique(s');
    assert QueuesOk(s');
    assert ThreadsOk(c, s');
    assert ActiveHeld(s');
    assert EntriesOk(c, s');
  }

  lemma SlotOwned(c: Config, s: State, i: nat)
    requires Owned(c, s) && i < |s.threads| && s.threads[i].call == NoCall
    requires s.threads[i].pc.Received? || s.threads[i].pc.Refused?
    requires s.threads[i].role.Worker?
    ensures var s' := WorkerStep(c, s, i, s.threads[i].role.t, Tau); s'.Some? && Owned(c, s'.value)
  {
    hide Owned, EntryOk, Tokens, Process, Finish, Discover, Receive;
    var th := s.threads[i];
    var k := th.pc.key;
    var s' := WorkerStep(c, s, i, th.role.t, Tau).value;
    KnowThread(c, s, i);
    assert k in Held(th);
    var e := s.entries[k];
    RefuseOk(c, s.queues, e);
    assert s.entries[k := e] == s.entries;
    WorkStep(c, s, i, k, e, s'.threads[i].pc);
    SameOwners(c, s.Put(k, e).Go(i, s'.threads[i].pc), s');
  }

  lemma RefuseOk(c: Config, qs: Queues, e: NodeEntry)
    requires EntryOk(c, qs, e) && e.state == Queued
    ensures EntryOk(c, qs, e.(state := BudgetDiscarded, failure := None))
  {}

  lemma FinishOwned(c: Config, s: State, i: nat)
    requires Owned(c, s) && i < |s.threads| && s.threads[i].call == NoCall && s.threads[i].pc.Finishing?
    ensures Owned(c, Finish(s, i, s.threads[i].pc.key, s.threads[i].pc.terminal, s.threads[i].pc.reason))
  {
    hide Owned, EntryOk, Tokens;
    var pc := s.threads[i].pc;
    KnowThread(c, s, i);
    var e' := s.entries[pc.key].(state := pc.terminal, failure := pc.reason);
    WorkStep(c, s, i, pc.key, e', Decrementing(pc.key, pc.terminal == BudgetDiscarded));
  }

  lemma DecrementOwned(c: Config, s: State, i: nat)
    requires Owned(c, s) && i < |s.threads| && s.threads[i].call == NoCall && s.threads[i].pc.Decrementing?
    requires s.threads[i].role.Worker?
    ensures var s' := WorkerStep(c, s, i, s.threads[i].role.t, Tau); s'.Some? && Owned(c, s'.value)
  {
    hide Owned, EntryOk, Tokens;
    var th := s.threads[i];
    var s' := WorkerStep(c, s, i, th.role.t, Tau).value;
    KnowThread(c, s, i);
    ReleaseStep(c, s, s', i, s'.threads[i], th.pc.key);
  }

  lemma ResendOwned(c: Config, s: State, i: nat)
    requires Owned(c, s) && Budget(c, s) && i < |s.threads| && s.threads[i].call == NoCall && s.threads[i].pc.Resending?
    requires s.threads[i].role.Worker?
    ensures var s' := WorkerStep(c, s, i, s.threads[i].role.t, Tau); s'.Some? && Owned(c, s'.value)
  {
    hide Owned, EntryOk, Tokens, Between, ThreadOk, PcOk, Process, Finish, Discover, Receive;
    var th := s.threads[i];
    var k := th.pc.key;
    var t := th.role.t;
    KnowThread(c, s, i);
    ResendKnown(c, s.queues, s.entries, th);
    RoomInQueues(c, s, i, k, t);
    if s.queues.At(t).open {
      Unkeyed(c, s.queues, s.entries, th, Idle);
      SendStep(c, s, WorkerStep(c, s, i, t, Tau).value, i, th.(pc := Idle), k, t);
    } else {
      var e := s.entries[k];
      assert s.entries[k := e] == s.entries;
      WorkStep(c, s, i, k, e, Finishing(k, th.pc.terminal, Some(th.pc.kind)));
    }
  }

  lemma ResendKnown(c: Config, qs: Queues, entries: Entries, th: Thread)
    requires ThreadOk(c, qs, entries, th) && th.pc.Resending? && th.call == NoCall && th.role.Worker?
    ensures th.pc.key in Held(th) && QueuedAt(entries, th.pc.key, th.role.t)
    ensures !qs.At(th.role.t).open ==>
              PcOk(c, qs, entries[th.pc.key], Finishing(th.pc.key, th.pc.terminal, Some(th.pc.kind)))
  {
    hide EntryOk;
    var k := th.pc.key;
    if !qs.At(th.role.t).open {
      FallBackOk(c, qs, entries[k], th.pc.terminal, th.pc.kind);
    }
  }

  /** A thread that drops its address, or had none, only has to be at a point its role allows. */
  lemma Unkeyed(c: Config, qs: Queues, entries: Entries, th: Thread, pc: Pc)
    requires ThreadOk(c, qs, entries, th) && th.call == NoCall && KeyOf(pc) == None && RoleOk(th.(pc := pc))
    ensures ThreadOk(c, qs, entries, th.(pc := pc))
    ensures Held(th.(pc := pc)) == multiset{} && Held(th) == PcHeld(th.pc)
  {}

  lemma Keyed(c: Config, qs: Queues, entries: Entries, th: Thread, pc: Pc)
    requires ThreadOk(c, qs, entries, th) && th.call == NoCall && KeyOf(th.pc) == None && th.role.Worker?
    requires KeyOf(pc).Some? && pc.key in entries && entries[pc.key].network.Carrier() == th.role.t
    requires PcOk(c, qs, entries[pc.key], pc)
    ensures ThreadOk(c, qs, entries, th.(pc := pc))
    ensures Held(th.(pc := pc)) == Held(th) + multiset{pc.key}
  {
    hide EntryOk, PcOk;
  }

  /** A retry that meets a closed queue ends with the reason of the lost attempt. */
  lemma FallBackOk(c: Config, qs: Queues, e: NodeEntry, terminal: NodeState, kind: FailKind)
    requires Retriable(c, e, terminal, kind) && !qs.At(e.network.Carrier()).open
    ensures EntryOk(c, qs, e.(state := terminal, failure := Some(kind)))
  {}

  lemma ReceiveOwned(c: Config, s: State, i: nat, late: bool)
    requires Owned(c, s) && i < |s.threads| && s.threads[i].call == NoCall && s.threads[i].pc.Idle?
    requires s.threads[i].role.Worker? && Receive(s, i, s.threads[i].role.t, late).Some?
    ensures Owned(c, Receive(s, i, s.threads[i].role.t, late).value)
  {
    hide EntryOk, Tokens, Between, ThreadOk, Held;
    var th := s.threads[i];
    var t := th.role.t;
    var s' := Receive(s, i, t, late).value;
    assert ThreadOk(c, s.queues, s.entries, th);
    if s'.threads[i].pc.Exited? {
      Unkeyed(c, s.queues, s.entries, th, Exited);
      ControlStep(c, s, s', i, th.(pc := Exited));
    } else {
      var k := s.queues.At(t).items[0];
      assert QueuedAt(s.entries, k, t) && EntryOk(c, s.queues, s.entries[k]);
      QueuedEntry(c, s.queues, s.entries[k]);
      Keyed(c, s.queues, s.entries, th, Received(k));
      ReceiveStep(c, s, s', i, th.(pc := Received(k)), t);
    }
  }

  lemma QueuedEntry(c: Config, qs: Queues, e: NodeEntry)
    requires EntryOk(c, qs, e) && e.state == Queued
    ensures Between(c, e) && |e.attempts| < c.handshakeAttempts
  {}

  // ---- addresses entering the store -------------------------------------------------------------

  lemma FreshOk(c: Config, qs: Queues, network: NetworkType, ts: int, state: NodeState)
    requires 0 < c.handshakeAttempts && (state == Queued || state == StaleDiscarded)
    ensures EntryOk(c, qs, NewEntry(network, ts, state))
  {}

  lemma LiftOk(c: Config, qs: Queues, e: NodeEntry, ts: int)
    requires 0 < c.handshakeAttempts && EntryOk(c, qs, e) && e.state == StaleDiscarded
    ensures EntryOk(c, qs, e.(freshestTs := ts, state := Queued))
  {}

  lemma ParentKeeps(c: Config, qs: Queues, entries: Entries, entries': Entries, th: Thread, k: AddrKey)
    requires ThreadOk(c, qs, entries, th) && th.call == NoCall && (th.pc.Seeding? || th.pc.Discovering?)
    requires OnlyAt(entries, entries', k) && k in entries' && entries'[k].state == Queued && k !in Held(th)
    ensures ThreadOk(c, qs, entries', th.(call := Marked(k)))
  {}

  /** A gossiped address is queued, refreshed, shelved as stale, or rejected. */
  lemma GossipOwned(c: Config, s: State, i: nat, ev: Event)
    requires Owned(c, s) && ValidConfig(c) && i < |s.threads| && s.threads[i].call == NoCall
    requires s.threads[i].pc.Discovering? && ev.Gossip? && Discover(c, s, i, ev).Some?
    ensures Owned(c, Discover(c, s, i, ev).value)
  {
    hide EntryOk, ThreadOk, Tokens;
    var k := ev.key;
    var s' := Discover(c, s, i, ev).value;
    var (entries, outcome) := Upsert(s.entries, c.maxAddresses, k, ev.ts, ev.network, c.freshnessThreshold, ev.now);
    FreshOk(c, s.queues, ev.network, ev.ts, Queued);
    FreshOk(c, s.queues, ev.network, ev.ts, StaleDiscarded);
    if outcome == Enqueue {
      if k in s.entries {
        LiftOk(c, s.queues, s.entries[k], Max(s.entries[k].freshestTs, ev.ts));
      }
      MarkOwned(c, s, s', i, k);
    } else if outcome == BudgetRejected {
      assert s' == s;
    } else {
      QuietStep(c, s, s', i, k);
    }
  }

  lemma MarkOwned(c: Config, s: State, s': State, i: nat, k: AddrKey)
    requires Owned(c, s) && i < |s.threads| && s.threads[i].call == NoCall
    requires s.threads[i].pc.Seeding? || s.threads[i].pc.Discovering?
    requires s' == s.(entries := s'.entries).InCall(i, Marked(k))
    requires OnlyAt(s.entries, s'.entries, k) && k in s'.entries && s'.entries[k].state == Queued
    requires k in s.entries ==> s.entries[k].state == StaleDiscarded
    requires EntryOk(c, s.queues, s'.entries[k])
    ensures Owned(c, s')
  {
    hide Owned, EntryOk, ThreadOk, Tokens;
    var th := s.threads[i];
    TokensMoved(s, s, i, th);
    if k in Held(th) {
      TokenKnown(c, s, k);
    }
    KnowThread(c, s, i);
    ParentKeeps(c, s.queues, s.entries, s'.entries, th, k);
    AcquireStep(c, s, s', i, th.(call := Marked(k)), k);
  }

  lemma NoteOwned(c: Config, s: State, i: nat, ev: Event)
    requires Owned(c, s) && i < |s.threads| && s.threads[i].call == NoCall && s.threads[i].pc.Discovering?
    requires !ev.Gossip? && Discover(c, s, i, ev).Some?
    ensures Owned(c, Discover(c, s, i, ev).value)
  {
    hide Owned, Tokens;
    var k := s.threads[i].pc.key;
    KnowThread(c, s, i);
    assert k in Held(s.threads[i]);
    var (e, next) := Note(c, s.entries[k], k, ev).value;
    WorkStep(c, s, i, k, e, next);
  }

  // ---- the other threads --------------------------------------------------------------------------

  lemma SeedOwned(c: Config, s: State, i: nat, ev: Event)
    requires Owned(c, s) && ValidConfig(c) && i < |s.threads| && s.threads[i].call == NoCall
    requires s.threads[i].role.MainThread? && MainStep(c, s, i, ev).Some?
    ensures Owned(c, MainStep(c, s, i, ev).value)
  {
    hide Owned, EntryOk, Tokens, ThreadOk, Held;
    var th := s.threads[i];
    var s' := MainStep(c, s, i, ev).value;
    if ev.SeedsDone? {
      KnowThread(c, s, i);
      Unkeyed(c, s.queues, s.entries, th, s'.threads[i].pc);
      ControlStep(c, s, s', i, s'.threads[i]);
    } else if c.filterSeeds && ev.network !in c.enabled {
      assert s' == s;
    } else if ev.key in s.entries {
      QuietStep(c, s, s', i, ev.key);
    } else if |s.entries| < c.maxAddresses {
      FreshOk(c, s.queues, ev.network, ev.now, Queued);
      MarkOwned(c, s, s', i, ev.key);
    }
  }

  lemma CloseOwned(c: Config, s: State, i: nat)
    requires Owned(c, s) && i < |s.threads| && s.threads[i].call == NoCall && s.threads[i].pc.Closing?
    ensures Owned(c, CloseStep(s, i))
  {
    hide Owned;
    var todo := s.threads[i].pc.todo;
    if todo == [] {
      assert s.(queues := s.queues) == s;
      CloseMove(c, s, i, s.queues, AfterClosing(s.threads[i].role));
    } else {
      CloseKeeps(s.queues, todo[0]);
      CloseMove(c, s, i, s.queues.Close(todo[0]), Closing(todo[1..]));
    }
  }

  lemma CloseKeeps(qs: Queues, t: Transport)
    ensures NoReopen(qs, qs.Close(t)) && !qs.Close(t).At(t).open
    ensures forall u :: qs.Close(t).At(u).items == qs.At(u).items
  {}

  lemma CloseMove(c: Config, s: State, i: nat, qs: Queues, pc: Pc)
    requires Owned(c, s) && i < |s.threads| && s.threads[i].call == NoCall && s.threads[i].pc.Closing?
    requires NoReopen(s.queues, qs) && forall t :: qs.At(t).items == s.queues.At(t).items
    requires pc.Closing? || pc == AfterClosing(s.threads[i].role)
    ensures Owned(c, s.(queues := qs).Go(i, pc))
  {
    hide Owned, EntryOk, Tokens, ThreadOk, Held, NoReopen;
    var th := s.threads[i];
    KnowThread(c, s, i);
    RoleKnown(c, s.queues, s.entries, th);
    Unkeyed(c, s.queues, s.entries, th, pc);
    ThreadMono(c, s.queues, qs, s.entries, th.(pc := pc));
    ControlStep(c, s, s.(queues := qs).Go(i, pc), i, th.(pc := pc));
  }

  lemma RoleKnown(c: Config, qs: Queues, entries: Entries, th: Thread)
    requires ThreadOk(c, qs, entries, th)
    ensures RoleOk(th)
  {}

  lemma SignalOwned(c: Config, s: State, i: nat, ev: Event)
    requires Owned(c, s) && i < |s.threads| && s.threads[i].call == NoCall
    requires s.threads[i].role.SignalThread? && SignalStep(s, i, ev).Some?
    ensures Owned(c, SignalStep(s, i, ev).value)
  {
    hide Owned, EntryOk, Tokens, ThreadOk, Held;
    var th := s.threads[i];
    var s' := SignalStep(s, i, ev).value;
    KnowThread(c, s, i);
    Unkeyed(c, s.queues, s.entries, th, s'.threads[i].pc);
    ControlStep(c, s, s', i, s'.threads[i]);
  }

  lemma WorkerOwned(c: Config, s: State, i: nat, ev: Event)
    requires Owned(c, s) && ValidConfig(c) && Budget(c, s) && i < |s.threads| && s.threads[i].call == NoCall
    requires s.threads[i].role.Worker? && WorkerStep(c, s, i, s.threads[i].role.t, ev).Some?
    ensures Owned(c, WorkerStep(c, s, i, s.threads[i].role.t, ev).value)
  {
    hide Owned, Process, Finish, Discover, Receive;
    match s.threads[i].pc {
      case Idle => ReceiveOwned(c, s, i, ev == Late);
      case Received(_) | Refused(_) => SlotOwned(c, s, i);
      case Finishing(_, _, _) => FinishOwned(c, s, i);
      case Decrementing(_, _) => DecrementOwned(c, s, i);
      case Resending(_, _, _) => ResendOwned(c, s, i);
      case Discovering(_) => DiscoverOwned(c, s, i, ev);
      case _ => ProcessOwned(c, s, i, ev);
    }
  }

  lemma DiscoverOwned(c: Config, s: State, i: nat, ev: Event)
    requires Owned(c, s) && ValidConfig(c) && i < |s.threads| && s.threads[i].call == NoCall
    requires s.threads[i].pc.Discovering? && Discover(c, s, i, ev).Some?
    ensures Owned(c, Discover(c, s, i, ev).value)
  {
    hide Owned;
    if ev.Gossip? {
      GossipOwned(c, s, i, ev);
    } else {
      NoteOwned(c, s, i, ev);
    }
  }

  /** Whatever thread moves and whatever the environment decides, ownership is kept. */
  lemma StepOwned(c: Config, s: State, i: nat, ev: Event)
    requires Owned(c, s) && ValidConfig(c) && Budget(c, s) && i < |s.threads| && Step(c, s, i, ev).Some?
    ensures Owned(c, Step(c, s, i, ev).value)
  {
    hide Owned, EnqueueStep, CloseStep, MainStep, SignalStep, WorkerStep;
    var th := s.threads[i];
    if th.call != NoCall {
      EnqueueOwned(c, s, i);
    } else if th.pc.Closing? {
      CloseOwned(c, s, i);
    } else {
      match th.role
      case MainThread => SeedOwned(c, s, i, ev);
      case SignalThread => SignalOwned(c, s, i, ev);
      case Worker(_) => WorkerOwned(c, s, i, ev);
    }
  }
}
