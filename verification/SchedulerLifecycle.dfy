/** Who runs when, who closes the queues, and how workers leave. */
module SchedulerLifecycle {
  import opened Base
  import opened Network
  import opened NodeStore
  import opened Scheduler
  import opened SchedulerInvariant
  import opened SchedulerOwnership
  import opened SchedulerCounting

  ghost predicate Layout(c: Config, s: State) {
    |s.threads| == 2 + |c.pools| && s.threads[0].role == MainThread && s.threads[1].role == SignalThread &&
    forall i :: 0 <= i < |c.pools| ==> s.threads[2 + i].role == Worker(c.pools[i])
  }

  /** Before the pools are spawned nothing but the main thread has moved. */
  ghost predicate Waits(s: State) {
    |s.threads| > 0 &&
    (!s.Running() ==> !s.shutdown) &&
    forall i :: 1 <= i < |s.threads| && !s.Running() ==> AtRest(s.threads[i])
  }

  predicate AtRest(th: Thread) { th.call == NoCall && (th.pc.Idle? || th.pc.AwaitSignal?) }

  predicate ClosingOn(th: Thread, t: Transport) { th.pc.Closing? && t in th.pc.todo }

  /** Once seeded, a crawl without outstanding work has every queue closed or being closed. */
  ghost predicate Closers(s: State) {
    |s.threads| > 0 &&
    (!s.threads[0].pc.Seeding? && s.outstanding == 0 ==>
       forall t :: s.queues.At(t).open ==> exists j :: 0 <= j < |s.threads| && ClosingOn(s.threads[j], t))
  }

  predicate Drained(q: Queue) { !q.open && q.items == [] }

  /** A worker leaves on shutdown, or when its queue is closed and drained. */
  ghost predicate Exits(s: State) {
    forall i :: 0 <= i < |s.threads| && s.threads[i].pc.Exited? ==>
      s.threads[i].role.Worker? && (s.shutdown || Drained(s.queues.At(s.threads[i].role.t)))
  }

  /** The crawler only ever stores addresses of enabled networks. */
  ghost predicate Nets(c: Config, s: State) {
    c.filterSeeds ==> forall k :: k in s.entries ==> s.entries[k].network in c.enabled
  }

  ghost predicate Life(c: Config, s: State) {
    Layout(c, s) && Waits(s) && Closers(s) && Exits(s) && Nets(c, s)
  }

  // ---- what any step can do to the queues, the flags and the threads ----------------------------

  ghost predicate QueueLaw(qs: Queues, qs': Queues) {
    forall t :: (qs'.At(t).open ==> qs.At(t).open) && (Drained(qs.At(t)) ==> Drained(qs'.At(t)))
  }

  ghost predicate Only(s: State, s': State, i: nat) {
    i < |s.threads| && |s'.threads| == |s.threads| && s'.threads[i].role == s.threads[i].role &&
    forall j :: 0 <= j < |s.threads| && j != i ==> s'.threads[j] == s.threads[j]
  }

  /** What thread `i` may leave behind: its own position, queues that never reopen or refill once
      drained, and an exit only with reason. */
  ghost predicate Effects(s: State, s': State, i: nat) {
    Only(s, s', i) && QueueLaw(s.queues, s'.queues) && (s.shutdown ==> s'.shutdown) &&
    (s'.threads[i].pc.Exited? ==>
       s'.threads[i].role.Worker? && (s'.shutdown || Drained(s'.queues.At(s'.threads[i].role.t))))
  }

  lemma SendLaw(qs: Queues, t: Transport, k: AddrKey, capacity: nat)
    requires qs.TrySend(t, k, capacity).Some?
    ensures QueueLaw(qs, qs.TrySend(t, k, capacity).value)
  {}

  lemma CloseLaw(qs: Queues, t: Transport)
    ensures QueueLaw(qs, qs.Close(t))
  {}

  lemma EnqueueEffects(c: Config, s: State, i: nat)
    requires i < |s.threads| && s.threads[i].call != NoCall && !s.threads[i].pc.Exited?
    ensures Effects(s, EnqueueStep(c, s, i), i)
  {
    if s.threads[i].call.Counted? {
      var k := s.threads[i].call.child;
      var t := if k in s.entries then s.entries[k].network.Carrier() else OverIp;
      if s.queues.TrySend(t, k, c.maxAddresses).Some? {
        SendLaw(s.queues, t, k, c.maxAddresses);
      }
    }
  }

  lemma ProcessEffects(c: Config, s: State, i: nat, ev: Event)
    requires i < |s.threads| && Process(c, s, i, ev).Some?
    ensures Effects(s, Process(c, s, i, ev).value, i)
  {
    hide Advance;
    AdvanceKeys(c, s.entries[s.threads[i].pc.key], s.threads[i].pc, ev);
  }

  lemma AdvanceKeys(c: Config, e: NodeEntry, pc: Pc, ev: Event)
    requires Advance(c, e, pc, ev).Some?
    ensures KeyOf(Advance(c, e, pc, ev).value.1).Some?
    ensures Advance(c, e, pc, ev).value.0.network == e.network
  {}

  lemma ReceiveEffects(s: State, i: nat, t: Transport, late: bool)
    requires i < |s.threads| && s.threads[i].role == Worker(t) && Receive(s, i, t, late).Some?
    ensures Effects(s, Receive(s, i, t, late).value, i)
  {}

  lemma WorkerEffects(c: Config, s: State, i: nat, t: Transport, ev: Event)
    requires i < |s.threads| && !s.threads[i].pc.Closing? && s.threads[i].role == Worker(t) &&
        WorkerStep(c, s, i, t, ev).Some?
    ensures Effects(s, WorkerStep(c, s, i, t, ev).value, i)
  {
    hide Effects, Process, Receive, Discover;
    var pc := s.threads[i].pc;
    if pc.Idle? {
      ReceiveEffects(s, i, t, ev == Late);
    } else if pc.Discovering? {
      DiscoverEffects(c, s, i, ev);
    } else if pc.Received? || pc.Refused? || pc.Finishing? || pc.Decrementing? || pc.Resending? {
      OwnEffects(c, s, i, t);
    } else {
      ProcessEffects(c, s, i, ev);
    }
  }

  lemma OwnEffects(c: Config, s: State, i: nat, t: Transport)
    requires i < |s.threads|
    requires var pc := s.threads[i].pc;
             pc.Received? || pc.Refused? || pc.Finishing? || pc.Decrementing? || pc.Resending?
    ensures WorkerStep(c, s, i, t, Tau).Some? && Effects(s, WorkerStep(c, s, i, t, Tau).value, i)
  {
    hide Process, Receive, Discover;
    var pc := s.threads[i].pc;
    if pc.Resending? && s.queues.TrySend(t, pc.key, c.maxAddresses).Some? {
      SendLaw(s.queues, t, pc.key, c.maxAddresses);
    }
  }

  lemma DiscoverEffects(c: Config, s: State, i: nat, ev: Event)
    requires i < |s.threads| && s.threads[i].pc.Discovering? && Discover(c, s, i, ev).Some?
    ensures Effects(s, Discover(c, s, i, ev).value, i)
  {
    hide Upsert;
  }

  lemma CloseEffects(s: State, i: nat)
    requires i < |s.threads| && s.threads[i].pc.Closing?
    ensures Effects(s, CloseStep(s, i), i)
  {
    var todo := s.threads[i].pc.todo;
    if todo != [] {
      CloseLaw(s.queues, todo[0]);
    }
  }

  lemma OtherEffects(c: Config, s: State, i: nat, ev: Event)
    requires i < |s.threads|
    ensures MainStep(c, s, i, ev).Some? ==> Effects(s, MainStep(c, s, i, ev).value, i)
    ensures SignalStep(s, i, ev).Some? ==> Effects(s, SignalStep(s, i, ev).value, i)
  {
    hide Observe;
  }

  lemma StepEffects(c: Config, s: State, i: nat, ev: Event)
    requires i < |s.threads| && Step(c, s, i, ev).Some? && RoleOk(s.threads[i])
    ensures Effects(s, Step(c, s, i, ev).value, i)
  {
    hide Effects, EnqueueStep, CloseStep, MainStep, SignalStep, WorkerStep;
    var th := s.threads[i];
    if th.call != NoCall {
      EnqueueEffects(c, s, i);
    } else if th.pc.Closing? {
      CloseEffects(s, i);
    } else {
      OtherEffects(c, s, i, ev);
      if th.role.Worker? {
        WorkerEffects(c, s, i, th.role.t, ev);
      }
    }
  }

  // ---- the parts of the invariant -----------------------------------------------------------------

  lemma ExitsKept(s: State, s': State, i: nat)
    requires Exits(s) && Effects(s, s', i)
    ensures Exits(s')
  {}

  lemma LayoutKept(c: Config, s: State, s': State, i: nat)
    requires Layout(c, s) && Only(s, s', i)
    ensures Layout(c, s')
  {}

  lemma RoleAt(c: Config, s: State, i: nat)
    requires Layout(c, s) && i < |s.threads|
    ensures s.threads[i].role == if i == 0 then MainThread else if i == 1 then SignalThread else Worker(c.pools[i - 2])
  {
    if i >= 2 {
      var p: nat := i - 2;
      assert s.threads[2 + p].role == Worker(c.pools[p]);
    }
  }

  lemma WaitsKept(c: Config, s: State, s': State, i: nat, ev: Event)
    requires Layout(c, s) && Waits(s) && i < |s.threads| && Step(c, s, i, ev) == Some(s')
    requires RoleOk(s.threads[i])
    ensures Waits(s')
    ensures s.Running() <==> i != 0
  {
    hide Step;
    StepEffects(c, s, i, ev);
    if i == 0 {
      MainSilent(c, s, s', ev);
    } else {
      RoleAt(c, s, i);
      RestSilent(c, s, s', i, ev);
    }
  }

  /** Once the pools are spawned the main thread only waits; before that nobody raises the flag. */
  lemma MainSilent(c: Config, s: State, s': State, ev: Event)
    requires |s.threads| > 0 && s.threads[0].role == MainThread && RoleOk(s.threads[0]) && Step(c, s, 0, ev) == Some(s')
    ensures !s.Running() && s'.shutdown == s.shutdown
  {
    hide Observe;
  }

  lemma RestSilent(c: Config, s: State, s': State, i: nat, ev: Event)
    requires 0 < i < |s.threads| && !s.threads[i].role.MainThread? && Step(c, s, i, ev) == Some(s')
    ensures AtRest(s.threads[i]) ==> s.Running()
  {
    hide WorkerStep;
  }

  // ---- where `outstanding` can reach zero -----------------------------------------------------------

  predicate ClosesAll(th: Thread) { th.pc.Closing? && ALL_TRANSPORTS <= th.pc.todo }

  lemma ReceiveKeeps(s: State, i: nat, t: Transport, late: bool)
    requires i < |s.threads| && Receive(s, i, t, late).Some?
    ensures Receive(s, i, t, late).value.outstanding == s.outstanding
    ensures Receive(s, i, t, late).value.numProcessed == s.numProcessed
    ensures Receive(s, i, t, late).value.entries == s.entries
  {}

  lemma FinishKeeps(s: State, i: nat, k: AddrKey, terminal: NodeState, reason: Option<FailKind>)
    requires i < |s.threads|
    ensures Finish(s, i, k, terminal, reason).outstanding == s.outstanding
    ensures Finish(s, i, k, terminal, reason).numProcessed == s.numProcessed
  {}

  lemma ProcessKeeps(c: Config, s: State, i: nat, ev: Event)
    requires i < |s.threads| && Process(c, s, i, ev).Some?
    ensures Process(c, s, i, ev).value.outstanding == s.outstanding
    ensures Process(c, s, i, ev).value.numProcessed == s.numProcessed
  {
    hide Advance, KeyOf;
  }

  lemma DiscoverKeeps(c: Config, s: State, i: nat, ev: Event)
    requires i < |s.threads| && s.threads[i].pc.Discovering? && Discover(c, s, i, ev).Some?
    ensures Discover(c, s, i, ev).value.outstanding == s.outstanding
    ensures Discover(c, s, i, ev).value.numProcessed == s.numProcessed
  {
    hide Upsert;
  }

  lemma FallsWorker(c: Config, s: State, s': State, i: nat, t: Transport, ev: Event)
    requires i < |s.threads| == |s'.threads| && WorkerStep(c, s, i, t, ev) == Some(s')
    ensures s'.outstanding == s.outstanding || s.threads[i].pc.Decrementing?
    ensures s.threads[i].pc.Decrementing? ==> s'.outstanding == Wrap(s.outstanding - 1)
    ensures s.threads[i].pc.Decrementing? && s.outstanding == 1 ==> ClosesAll(s'.threads[i])
  {
    hide Process, Receive, Discover, Finish, Queues.TrySend;
    match s.threads[i].pc
    case Idle => ReceiveKeeps(s, i, t, ev == Late);
    case Finishing(k, terminal, reason) => FinishKeeps(s, i, k, terminal, reason);
    case Discovering(_) => DiscoverKeeps(c, s, i, ev);
    case Received(_) =>
    case Refused(_) =>
    case Decrementing(_, _) =>
    case Resending(_, _, _) =>
    case _ => ProcessKeeps(c, s, i, ev);
  }

  lemma FallsOther(c: Config, s: State, s': State, i: nat, ev: Event)
    requires i < |s.threads| && s.threads[i].call == NoCall
    requires (s.threads[i].pc.Closing? && CloseStep(s, i) == s') || MainStep(c, s, i, ev) == Some(s') ||
        SignalStep(s, i, ev) == Some(s')
    ensures s'.outstanding == s.outstanding
    ensures s.threads[i].pc.Seeding? && s'.outstanding == 0 ==> s'.threads[i].pc.Seeding? || ClosesAll(s'.threads[i])
  {
    hide Observe;
  }

  lemma Falls(c: Config, s: State, s': State, i: nat, ev: Event)
    requires i < |s.threads| == |s'.threads| && RoleOk(s.threads[i]) && ValidConfig(c)
    requires Owned(c, s) && Counter(s) && Budget(c, s) && Counter(s') && s'.outstanding == 0
    requires Step(c, s, i, ev) == Some(s')
    ensures (s.outstanding == 0 && !s.threads[i].pc.Seeding?) || s'.threads[i].pc.Seeding? || ClosesAll(s'.threads[i])
  {
    hide Owned, EnqueueStep, CloseStep, MainStep, SignalStep, WorkerStep, Counter;
    var th := s.threads[i];
    CountBound(s', i);
    OutstandingFits(c, s);
    if th.call != NoCall {
      EnqueueStays(c, s, i);
    } else if th.pc.Closing? || !th.role.Worker? {
      FallsOther(c, s, s', i, ev);
    } else {
      FallsWorker(c, s, s', i, th.role.t, ev);
      if th.pc.Decrementing? {
        CountBound(s, i);
      }
    }
  }

  lemma EnqueueStays(c: Config, s: State, i: nat)
    requires i < |s.threads| && s.threads[i].call != NoCall
    ensures EnqueueStep(c, s, i).threads == s.threads[i := EnqueueStep(c, s, i).threads[i]]
    ensures EnqueueStep(c, s, i).threads[i].pc == s.threads[i].pc
  {}

  /** An open queue that thread `i` had yet to close is still to be closed, or closed now. */
  lemma CloserMoves(c: Config, s: State, s': State, i: nat, ev: Event, t: Transport)
    requires i < |s.threads| && Step(c, s, i, ev) == Some(s') && RoleOk(s.threads[i])
    requires ClosingOn(s.threads[i], t) && s'.queues.At(t).open
    ensures ClosingOn(s'.threads[i], t)
  {
    hide EnqueueStep, MainStep, SignalStep, WorkerStep;
    var todo := s.threads[i].pc.todo;
    assert todo == [todo[0]] + todo[1..];
  }

  lemma SeederLeads(c: Config, s: State, i: nat)
    requires Layout(c, s) && i < |s.threads| && RoleOk(s.threads[i]) && s.threads[i].pc.Seeding?
    ensures i == 0
  {
    RoleAt(c, s, i);
  }

  lemma ClosersKept(c: Config, s: State, s': State, i: nat, ev: Event)
    requires i < |s.threads| && Step(c, s, i, ev) == Some(s') && RoleOk(s.threads[i]) && ValidConfig(c)
    requires Layout(c, s') && i < |s'.threads| && RoleOk(s'.threads[i])
    requires Owned(c, s) && Counter(s) && Budget(c, s) && Counter(s') && Layout(c, s) && Waits(s) && Closers(s)
    ensures Closers(s')
  {
    hide Owned, Counter, Step;
    StepEffects(c, s, i, ev);
    WaitsKept(c, s, s', i, ev);
    if !s'.threads[0].pc.Seeding? && s'.outstanding == 0 {
      Falls(c, s, s', i, ev);
      forall t | s'.queues.At(t).open ensures exists j :: 0 <= j < |s'.threads| && ClosingOn(s'.threads[j], t) {
        if ClosesAll(s'.threads[i]) {
          assert t in s'.threads[i].pc.todo by {
            assert ALL_TRANSPORTS[0] == OverIp && ALL_TRANSPORTS[1] == OverTor && ALL_TRANSPORTS[2] == OverI2p;
            assert forall n :: 0 <= n < 3 ==> s'.threads[i].pc.todo[n] == ALL_TRANSPORTS[n];
          }
          assert ClosingOn(s'.threads[i], t);
        } else {
          if s'.threads[i].pc.Seeding? {
            SeederLeads(c, s', i);
          }
          assert s.queues.At(t).open;
          var j :| 0 <= j < |s.threads| && ClosingOn(s.threads[j], t);
          if j == i {
            CloserMoves(c, s, s', i, ev, t);
          }
          assert ClosingOn(s'.threads[j], t);
        }
      }
    }
  }

  // ---- networks ---------------------------------------------------------------------------------------

  /** Where an entry of the next state comes from. */
  ghost predicate Sourced(c: Config, s: State, s': State) {
    forall k :: k in s'.entries ==>
      (k in s.entries && s'.entries[k].network == s.entries[k].network) ||
      (c.filterSeeds ==> s'.entries[k].network in c.enabled)
  }

  lemma SourcedProcess(c: Config, s: State, i: nat, ev: Event)
    requires i < |s.threads| && Process(c, s, i, ev).Some?
    ensures Sourced(c, s, Process(c, s, i, ev).value)
  {
    hide Advance;
    AdvanceKeys(c, s.entries[s.threads[i].pc.key], s.threads[i].pc, ev);
  }

  lemma SourcedDiscover(c: Config, s: State, i: nat, ev: Event)
    requires i < |s.threads| && s.threads[i].pc.Discovering? && Discover(c, s, i, ev).Some?
    ensures Sourced(c, s, Discover(c, s, i, ev).value)
  {}

  lemma SourcedOwn(c: Config, s: State, s': State, i: nat, t: Transport, ev: Event)
    requires i < |s.threads| && WorkerStep(c, s, i, t, ev) == Some(s')
    requires var pc := s.threads[i].pc;
             pc.Idle? || pc.Received? || pc.Refused? || pc.Finishing? || pc.Decrementing? || pc.Resending?
    ensures Sourced(c, s, s')
  {
    hide Process, Discover, Queues.TrySend;
  }

  lemma SourcedWorker(c: Config, s: State, s': State, i: nat, t: Transport, ev: Event)
    requires i < |s.threads| && WorkerStep(c, s, i, t, ev) == Some(s')
    ensures Sourced(c, s, s')
  {
    hide Sourced, Process, Discover, Receive, Finish;
    var pc := s.threads[i].pc;
    if pc.Idle? || pc.Received? || pc.Refused? || pc.Finishing? || pc.Decrementing? || pc.Resending? {
      SourcedOwn(c, s, s', i, t, ev);
    } else if pc.Discovering? {
      SourcedDiscover(c, s, i, ev);
    } else {
      SourcedProcess(c, s, i, ev);
    }
  }

  lemma SourcedStep(c: Config, s: State, s': State, i: nat, ev: Event)
    requires i < |s.threads| && Step(c, s, i, ev) == Some(s')
    ensures Sourced(c, s, s')
  {
    hide Sourced, WorkerStep, EnqueueStep, CloseStep, MainStep, SignalStep;
    var th := s.threads[i];
    if th.call != NoCall {
      SourcedCall(c, s, i);
    } else if th.pc.Closing? || th.role.SignalThread? {
      SourcedClosing(c, s, s', i, ev);
    } else if th.role.MainThread? {
      SourcedMain(c, s, i, ev);
    } else {
      SourcedWorker(c, s, s', i, th.role.t, ev);
    }
  }

  lemma SourcedCall(c: Config, s: State, i: nat)
    requires i < |s.threads| && s.threads[i].call != NoCall
    ensures Sourced(c, s, EnqueueStep(c, s, i))
  {
    hide Queues.TrySend;
  }

  lemma SourcedMain(c: Config, s: State, i: nat, ev: Event)
    requires i < |s.threads| && MainStep(c, s, i, ev).Some?
    ensures Sourced(c, s, MainStep(c, s, i, ev).value)
  {}

  lemma SourcedClosing(c: Config, s: State, s': State, i: nat, ev: Event)
    requires i < |s.threads|
    requires (s.threads[i].pc.Closing? && CloseStep(s, i) == s') || SignalStep(s, i, ev) == Some(s')
    ensures Sourced(c, s, s')
  {
    hide Queues.Close;
  }

  /** Every step keeps the order of the run. */
  lemma StepLife(c: Config, s: State, s': State, i: nat, ev: Event)
    requires Owned(c, s) && ValidConfig(c) && Numbers(c, s) && Life(c, s)
    requires i < |s.threads| && Step(c, s, i, ev) == Some(s') && Owned(c, s') && Numbers(c, s')
    ensures Life(c, s')
  {
    hide Step, EntryOk, PcOk, Counter, Slots, Limits;
    assert ThreadOk(c, s.queues, s.entries, s.threads[i]);
    StepEffects(c, s, i, ev);
    assert ThreadOk(c, s'.queues, s'.entries, s'.threads[i]);
    WaitsKept(c, s, s', i, ev);
    LayoutKept(c, s, s', i);
    ExitsKept(s, s', i);
    ClosersKept(c, s, s', i, ev);
    SourcedStep(c, s, s', i, ev);
  }
}
