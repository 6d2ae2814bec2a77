/** Bounds on a run: room in the queues, attempts and processing, the node limit, and how often the frontier queues an
    address. */
module SchedulerBounds {
  import opened Base
  import opened Network
  import opened NodeStore
  import opened Scheduler
  import opened SchedulerInvariant
  import opened SchedulerOwnership
  import opened SchedulerCounting
  import opened SchedulerLifecycle
  import opened SchedulerTheorems
  import opened SchedulerTermination
  import opened Tally

  // ---- queues ----------------------------------------------------------------------------------------------

  /** Every key takes at most one slot in all queues together, and the queues together hold no more keys
      than the store has entries. */
  lemma QueueSafety(c: Config, s: State)
    requires ValidConfig(c) && Occurs(c, s)
    ensures forall k :: InQueues(s.queues)[k] <= 1
    ensures s.queues.Size() <= |s.entries| <= c.maxAddresses
  {
    OccursInv(c, s);
    assert Owned(c, s) && Budget(c, s) && Unique(s);
    hide Inv, Owned, Occurs, Gather;
    TokensFit(c, s);
    assert |InQueues(s.queues)| == s.queues.Size();
    forall k ensures InQueues(s.queues)[k] <= 1 {
      assert Tokens(s)[k] <= 1;
    }
  }

  /** A send of `enqueue` or `requeue` fails exactly when the queue is closed: there is always room. */
  lemma SendFailsOnlyClosed(c: Config, s: State, i: nat, k: AddrKey, t: Transport)
    requires ValidConfig(c) && Occurs(c, s) && i < |s.threads|
    requires (s.threads[i].call == Counted(k)) || (s.threads[i].pc.Resending? && s.threads[i].pc.key == k)
    ensures s.queues.TrySend(t, k, c.maxAddresses) == None <==> !s.queues.At(t).open
  {
    OccursInv(c, s);
    hide Occurs;
    RoomInQueues(c, s, i, k, t);
  }

  // ---- processing --------------------------------------------------------------------------------------------

  lemma SlotHeld(th: Thread)
    ensures SlotOnly(th) <= Held(th) && |SlotOnly(th)| == Slot(th)
  {}

  lemma {:induction false} SlotTotal(ths: seq<Thread>)
    ensures Total(ths, Slot) == |Gather(ths, SlotOnly)|
  {
    if ths != [] {
      SlotTotal(ths[..|ths| - 1]);
      SlotHeld(ths[|ths| - 1]);
    }
  }

  /** An address never has more attempts begun or reserved than `handshake_attempts` allows. */
  lemma AttemptBound(c: Config, s: State, k: AddrKey)
    requires ValidConfig(c) && Occurs(c, s) && k in s.entries
    ensures s.entries[k].stats.handshakeAttempts + Gather(s.threads, SlotOnly)[k] <= c.handshakeAttempts
  {
    OccursInv(c, s);
    BoundedAttempts(c, s, k);
  }

  lemma BoundedAttempts(c: Config, s: State, k: AddrKey)
    requires Inv(c, s) && k in s.entries
    ensures s.entries[k].stats.handshakeAttempts + Gather(s.threads, SlotOnly)[k] <= c.handshakeAttempts
  {
    assert EntryOk(c, s.queues, s.entries[k]);
    EntryAttempts(c, s.queues, s.entries[k]);
    assert Unique(s) && Owned(c, s);
    hide Inv, Owned, EntryOk, Held, SlotOnly, Between;
    forall i | 0 <= i < |s.threads| ensures SlotOnly(s.threads[i]) <= Held(s.threads[i]) {
      SlotHeld(s.threads[i]);
    }
    GatherWithin(s.threads, SlotOnly, Held);
    assert Gather(s.threads, SlotOnly)[k] <= Tokens(s)[k] <= 1;
    if k in Gather(s.threads, SlotOnly) {
      var i := GatherWitness(s.threads, k, SlotOnly);
      SlotRoom(c, s, i, k);
    }
  }

  lemma EntryAttempts(c: Config, qs: Queues, e: NodeEntry)
    requires EntryOk(c, qs, e)
    ensures e.stats.handshakeAttempts <= c.handshakeAttempts
  {}

  lemma SlotRoom(c: Config, s: State, i: nat, k: AddrKey)
    requires Owned(c, s) && i < |s.threads| && k in SlotOnly(s.threads[i])
    ensures k in s.entries && s.entries[k].stats.handshakeAttempts < c.handshakeAttempts
  {
    hide EntryOk;
    assert ThreadOk(c, s.queues, s.entries, s.threads[i]);
  }

  /** Whatever peers advertise: `num_processed` is the number of attempts begun plus the slots reserved for
      attempts not begun yet, and a run processes at most `handshake_attempts` times per known address. */
  lemma WorkBound(c: Config, s: State)
    requires ValidConfig(c) && Occurs(c, s)
    ensures s.numProcessed == Sum(AttemptsOf(s.entries)) + |Gather(s.threads, SlotOnly)|
    ensures s.numProcessed <= |s.entries| * c.handshakeAttempts <= c.maxAddresses * c.handshakeAttempts
  {
    OccursInv(c, s);
    BoundedWork(c, s);
  }

  lemma BoundedWork(c: Config, s: State)
    requires Inv(c, s)
    ensures s.numProcessed == Sum(AttemptsOf(s.entries)) + |Gather(s.threads, SlotOnly)|
    ensures s.numProcessed <= |s.entries| * c.handshakeAttempts <= c.maxAddresses * c.handshakeAttempts
  {
    assert Slots(s) && Budget(c, s) && Owned(c, s);
    hide Inv, Owned, SlotOnly;
    SlotTotal(s.threads);
    var extra := Gather(s.threads, SlotOnly);
    var begun := AttemptsOf(s.entries);
    forall k | k in extra ensures k in begun {
      var i := GatherWitness(s.threads, k, SlotOnly);
      SlotRoom(c, s, i, k);
    }
    SumShift(begun, extra);
    var charged := Shift(begun, extra);
    forall k | k in charged ensures charged[k] <= c.handshakeAttempts {
      BoundedAttempts(c, s, k);
    }
    SumBound(charged, c.handshakeAttempts);
    assert charged.Keys == s.entries.Keys;
    assert |charged| == |charged.Keys| == |s.entries.Keys| == |s.entries|;
    Monotone(|s.entries|, c.maxAddresses, c.handshakeAttempts);
  }

  lemma Monotone(a: nat, b: nat, m: nat)
    requires a <= b
    ensures a * m <= b * m
  {}

  // ---- the node limit ------------------------------------------------------------------------------------------

  lemma OnlyReserve(c: Config, s: State, s': State, i: nat, ev: Event)
    requires i < |s.threads| && Step(c, s, i, ev) == Some(s')
    ensures s'.numProcessed == s.numProcessed || TryReserve(c, s.numProcessed) == Some(s'.numProcessed)
  {
    hide WorkerStep, EnqueueStep, Observe, TryReserve;
    var th := s.threads[i];
    if th.call != NoCall {
      EnqueueKeepsCount(c, s, i);
    } else if th.role.Worker? && !th.pc.Closing? {
      WorkerReserve(c, s, s', i, th.role.t, ev);
    }
  }

  lemma EnqueueKeepsCount(c: Config, s: State, i: nat)
    requires i < |s.threads| && s.threads[i].call != NoCall
    ensures EnqueueStep(c, s, i).numProcessed == s.numProcessed
  {
    hide Queues.TrySend;
  }

  lemma WorkerReserve(c: Config, s: State, s': State, i: nat, t: Transport, ev: Event)
    requires i < |s.threads| && WorkerStep(c, s, i, t, ev) == Some(s')
    ensures s'.numProcessed == s.numProcessed || TryReserve(c, s.numProcessed) == Some(s'.numProcessed)
  {
    hide Process, Receive, Discover, Finish, Queues.TrySend, TryReserve;
    match s.threads[i].pc
    case Idle => ReceiveKeeps(s, i, t, ev == Late);
    case Finishing(k, terminal, reason) => FinishKeeps(s, i, k, terminal, reason);
    case Discovering(_) => DiscoverKeeps(c, s, i, ev);
    case Received(_) =>
    case Refused(_) =>
    case Decrementing(_, _) =>
    case Resending(_, _, _) =>
    case _ => ProcessKeeps(c, s, i, ev);
  }

  /** With `max_nodes` = N no run ever processes more than N, and from the first refusal on it has
      processed exactly N for good. */
  lemma {:induction false} NodeLimit(c: Config, s: State, s': State, i: nat, more: seq<Choice>)
    requires ValidConfig(c) && Occurs(c, s) && RunFrom(c, s, more) == Some(s')
    ensures c.maxNodes.Some? ==> s'.numProcessed <= c.maxNodes.value
    ensures s.nodeLimitReached || (i < |s.threads| && s.threads[i].pc.Refused?) ==>
              c.maxNodes.Some? && s'.numProcessed == c.maxNodes.value == s.numProcessed
    decreases |more|
  {
    OccursInv(c, s);
    hide Occurs, Inv, Step;
    Facts(c, s);
    RunInv(c, s, s', more);
    Facts(c, s');
    if more != [] {
      var n := |more| - 1;
      var before := RunFrom(c, s, more[..n]).value;
      NodeLimit(c, s, before, i, more[..n]);
      OnlyReserve(c, before, s', more[n].thread, more[n].event);
    }
  }

  // ---- gossip --------------------------------------------------------------------------------------------------

  predicate KnownTo(s: State, k: AddrKey) { k in s.entries && s.entries[k].state != StaleDiscarded }

  /** The choice queues `k` from the frontier. */
  predicate QueuesFromFrontier(c: Config, s: State, choice: Choice, k: AddrKey) {
    choice.thread < |s.threads| && s.threads[choice.thread].call == NoCall &&
    s.threads[choice.thread].pc.Discovering? &&
    choice.event.Gossip? && choice.event.key == k &&
    Upsert(s.entries, c.maxAddresses, k, choice.event.ts, choice.event.network, c.freshnessThreshold,
        choice.event.now).1 == Enqueue
  }

  /** How often a schedule queues `k` from the frontier. */
  ghost function FrontierEntries(c: Config, start: State, schedule: seq<Choice>, k: AddrKey): nat {
    if schedule == [] then 0
    else
      var n := |schedule| - 1;
      FrontierEntries(c, start, schedule[..n], k) +
      (match RunFrom(c, start, schedule[..n])
       case None => 0
       case Some(s) => if QueuesFromFrontier(c, s, schedule[n], k) then 1 else 0)
  }
}
