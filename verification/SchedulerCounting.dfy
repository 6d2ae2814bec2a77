/** The numbers of the scheduler: `outstanding`, `num_processed`, the address budget. */
module SchedulerCounting {
  import opened Base
  import opened Network
  import opened NodeStore
  import opened Scheduler
  import opened SchedulerInvariant
  import opened SchedulerOwnership
  import opened Tally

  /** How much of `outstanding` a thread accounts for. */
  function Load(th: Thread): nat {
    (if KeyOf(th.pc).Some? then 1 else 0) + (if th.call == NoCall || th.call.Marked? then 0 else 1)
  }

  /** Marked by the thread, not counted yet. */
  function Waiting(th: Thread): nat { if th.call.Marked? then 1 else 0 }

  /** A slot is reserved and the attempt not begun. */
  function Slot(th: Thread): nat { if th.pc.Reserved? || th.pc.Started? then 1 else 0 }

  ghost function AttemptsOf(entries: Entries): map<AddrKey, nat> {
    map k | k in entries :: entries[k].stats.handshakeAttempts
  }

  function Tries(entries: Entries, k: AddrKey): nat {
    if k in entries then entries[k].stats.handshakeAttempts else 0
  }

  ghost predicate Counter(s: State) {
    s.outstanding == s.queues.Size() + Total(s.threads, Load)
  }

  ghost predicate Slots(s: State) {
    s.numProcessed == Sum(AttemptsOf(s.entries)) + Total(s.threads, Slot)
  }

  predicate LimitHit(c: Config, s: State) { c.maxNodes.Some? && s.numProcessed >= c.maxNodes.value }

  ghost predicate Limits(c: Config, s: State) {
    (c.maxNodes.Some? ==> s.numProcessed <= c.maxNodes.value) &&
    (s.nodeLimitReached ==> LimitHit(c, s)) &&
    forall i :: 0 <= i < |s.threads| && s.threads[i].pc.Refused? ==> LimitHit(c, s)
  }

  ghost predicate Numbers(c: Config, s: State) {
    Budget(c, s) && Counter(s) && Slots(s) && Limits(c, s)
  }

  lemma {:induction false} HeldSize(ths: seq<Thread>)
    ensures |Gather(ths, Held)| == Total(ths, Load) + Total(ths, Waiting)
  {
    if ths != [] {
      HeldSize(ths[..|ths| - 1]);
    }
  }

  /** `outstanding` never exceeds the number of known addresses, with room for the uncounted ones. */
  lemma OutstandingFits(c: Config, s: State)
    requires Owned(c, s) && Counter(s)
    ensures s.outstanding + Total(s.threads, Waiting) <= |s.entries|
  {
    hide EntryOk, ThreadOk, Held;
    TokensFit(c, s);
    HeldSize(s.threads);
    assert |InQueues(s.queues)| == s.queues.Size();
  }

  // ---- one step changes the numbers in step with each other ------------------------------------

  /** Thread `i` becomes `th'`; queue sizes and `outstanding` move accordingly. */
  lemma CountMove(s: State, s': State, i: nat, th': Thread)
    requires Counter(s) && i < |s.threads| && s'.threads == s.threads[i := th']
    requires s'.outstanding - s.outstanding == s'.queues.Size() - s.queues.Size() + Load(th') - Load(s.threads[i])
    ensures Counter(s')
  {
    TotalUpdate(s.threads, i, th', Load);
  }

  lemma SlotMove(s: State, s': State, i: nat, th': Thread, k: AddrKey)
    requires Slots(s) && i < |s.threads| && s'.threads == s.threads[i := th'] && OnlyAt(s.entries, s'.entries, k)
    requires k in s.entries ==> k in s'.entries
    requires s'.numProcessed - s.numProcessed ==
        Slot(th') - Slot(s.threads[i]) + Tries(s'.entries, k) - Tries(s.entries, k)
    ensures Slots(s')
  {
    TotalUpdate(s.threads, i, th', Slot);
    if k in s'.entries {
      SumUpdate(AttemptsOf(s.entries), k, s'.entries[k].stats.handshakeAttempts);
      assert AttemptsOf(s'.entries) == AttemptsOf(s.entries)[k := s'.entries[k].stats.handshakeAttempts];
    } else {
      assert AttemptsOf(s'.entries) == AttemptsOf(s.entries);
    }
  }

  lemma LimitMove(c: Config, s: State, s': State, i: nat, th': Thread)
    requires Limits(c, s) && i < |s.threads| && s'.threads == s.threads[i := th']
    requires s'.numProcessed == s.numProcessed || TryReserve(c, s.numProcessed) == Some(s'.numProcessed)
    requires s'.nodeLimitReached ==> s.nodeLimitReached || s.threads[i].pc.Refused?
    requires th'.pc.Refused? ==> s.threads[i].pc.Refused? || LimitHit(c, s')
    ensures Limits(c, s')
  {}

  lemma SizeChange(qs: Queues, t: Transport, q: Queue)
    ensures qs.With(t, q).Size() == qs.Size() - |qs.At(t).items| + |q.items|
  {}

  lemma EnqueueNumbers(c: Config, s: State, i: nat)
    requires Owned(c, s) && ValidConfig(c) && Numbers(c, s) && i < |s.threads| && s.threads[i].call != NoCall
    ensures Numbers(c, EnqueueStep(c, s, i))
  {
    hide Owned, Counter, Slots, Limits;
    var s' := EnqueueStep(c, s, i);
    EnqueueCounts(c, s, i);
    EnqueueSlots(c, s, i);
    LimitMove(c, s, s', i, s'.threads[i]);
    assert s'.entries.Keys == s.entries.Keys;
    assert |s'.entries| == |s'.entries.Keys|;
  }

  lemma EnqueueSlots(c: Config, s: State, i: nat)
    requires Owned(c, s) && Slots(s) && i < |s.threads| && s.threads[i].call != NoCall
    ensures Slots(EnqueueStep(c, s, i))
  {
    hide Owned, Slots;
    var s' := EnqueueStep(c, s, i);
    KnowCall(c, s, i);
    SlotMove(s, s', i, s'.threads[i], s.threads[i].call.child);
  }

  lemma EnqueueCounts(c: Config, s: State, i: nat)
    requires Owned(c, s) && ValidConfig(c) && Counter(s) && Budget(c, s) && i < |s.threads| &&
        s.threads[i].call != NoCall
    ensures Counter(EnqueueStep(c, s, i))
  {
    hide Owned, Counter;
    var s' := EnqueueStep(c, s, i);
    var th := s.threads[i];
    var k := th.call.child;
    KnowCall(c, s, i);
    match th.call {
      case Marked(_) =>
        OutstandingFits(c, s);
        TotalUpdate(s.threads, i, th, Waiting);
        assert s'.outstanding == s.outstanding + 1;
      case Counted(_) =>
        var t := s.entries[k].network.Carrier();
        SizeChange(s.queues, t, s.queues.At(t).(items := s.queues.At(t).items + [k]));
      case Rejected(_) =>
      case Discarded(_) =>
        CountBound(s, i);
        OutstandingFits(c, s);
        assert s'.outstanding == s.outstanding - 1;
    }
    CountMove(s, s', i, s'.threads[i]);
  }

  lemma KnowCall(c: Config, s: State, i: nat)
    requires Owned(c, s) && i < |s.threads| && s.threads[i].call != NoCall
    ensures s.threads[i].call.child in s.entries
  {
    hide EntryOk, PcOk;
    assert ThreadOk(c, s.queues, s.entries, s.threads[i]);
  }

  lemma CountBound(s: State, i: nat)
    requires Counter(s) && i < |s.threads|
    ensures Load(s.threads[i]) <= s.outstanding
  {
    TotalUpdate(s.threads, i, s.threads[i], Load);
  }

  lemma CloseNumbers(c: Config, s: State, i: nat)
    requires Numbers(c, s) && i < |s.threads| && s.threads[i].pc.Closing? && s.threads[i].call == NoCall
    ensures Numbers(c, CloseStep(s, i))
  {
    hide Counter, Slots, Limits;
    var s' := CloseStep(s, i);
    var todo := s.threads[i].pc.todo;
    if todo != [] {
      SizeChange(s.queues, todo[0], s.queues.At(todo[0]).(open := false));
    }
    CountMove(s, s', i, s'.threads[i]);
    SlotMove(s, s', i, s'.threads[i], AddrKey("", 0));
    LimitMove(c, s, s', i, s'.threads[i]);
  }

  lemma SeedNumbers(c: Config, s: State, i: nat, ev: Event)
    requires Numbers(c, s) && i < |s.threads| && s.threads[i].call == NoCall && ev.Seed? && MainStep(c, s, i, ev).Some?
    ensures Numbers(c, MainStep(c, s, i, ev).value)
  {
    hide Counter, Slots, Limits, Observe;
    var s' := MainStep(c, s, i, ev).value;
    ObserveSize(s.entries, c.maxAddresses, ev.key, ev.network, ev.now);
    assert s'.threads == s.threads[i := s'.threads[i]];
    CountMove(s, s', i, s'.threads[i]);
    SlotMove(s, s', i, s'.threads[i], ev.key);
    LimitMove(c, s, s', i, s'.threads[i]);
  }

  lemma MainNumbers(c: Config, s: State, i: nat, ev: Event)
    requires Numbers(c, s) && i < |s.threads| && s.threads[i].call == NoCall && MainStep(c, s, i, ev).Some?
    ensures Numbers(c, MainStep(c, s, i, ev).value)
  {
    hide Counter, Slots, Limits, Observe;
    if ev.Seed? {
      SeedNumbers(c, s, i, ev);
    } else {
      var s' := MainStep(c, s, i, ev).value;
      CountMove(s, s', i, s'.threads[i]);
      SlotMove(s, s', i, s'.threads[i], AddrKey("", 0));
      LimitMove(c, s, s', i, s'.threads[i]);
    }
  }

  lemma ObserveSize(entries: Entries, limit: nat, k: AddrKey, network: NetworkType, now: int)
    requires |entries| <= limit
    ensures var entries' := Observe(entries, limit, k, network, now).0;
            |entries'| <= limit && OnlyAt(entries, entries', k) && (k in entries ==> k in entries') &&
            Tries(entries', k) == Tries(entries, k)
  {
    var entries' := Observe(entries, limit, k, network, now).0;
    if k in entries {
      assert entries'.Keys == entries.Keys;
      assert |entries'| == |entries'.Keys|;
    }
  }

  lemma SignalNumbers(c: Config, s: State, i: nat, ev: Event)
    requires Numbers(c, s) && i < |s.threads| && s.threads[i].call == NoCall && SignalStep(s, i, ev).Some?
    ensures Numbers(c, SignalStep(s, i, ev).value)
  {
    hide Counter, Slots, Limits;
    var s' := SignalStep(s, i, ev).value;
    CountMove(s, s', i, s'.threads[i]);
    SlotMove(s, s', i, s'.threads[i], AddrKey("", 0));
    LimitMove(c, s, s', i, s'.threads[i]);
  }

  /** The attempt counter of an entry moves only when an attempt begins. */
  lemma AdvanceCounts(c: Config, e: NodeEntry, pc: Pc, ev: Event)
    requires Advance(c, e, pc, ev).Some?
    ensures var (e', pc') := Advance(c, e, pc, ev).value;
            KeyOf(pc') == KeyOf(pc) && KeyOf(pc).Some? && !pc'.Refused? &&
            e'.stats.handshakeAttempts - e.stats.handshakeAttempts
              == Slot(Thread(MainThread, pc, NoCall)) - Slot(Thread(MainThread, pc', NoCall))
  {}

  lemma ProcessNumbers(c: Config, s: State, i: nat, ev: Event)
    requires Numbers(c, s) && i < |s.threads| && s.threads[i].call == NoCall && Process(c, s, i, ev).Some?
    ensures Numbers(c, Process(c, s, i, ev).value)
  {
    hide Counter, Slots, Limits, Advance;
    var s' := Process(c, s, i, ev).value;
    var k := s.threads[i].pc.key;
    AdvanceCounts(c, s.entries[k], s.threads[i].pc, ev);
    CountMove(s, s', i, s'.threads[i]);
    SlotMove(s, s', i, s'.threads[i], k);
    LimitMove(c, s, s', i, s'.threads[i]);
    assert s'.entries.Keys == s.entries.Keys;
    assert |s'.entries| == |s'.entries.Keys|;
  }

  lemma ReceiveNumbers(c: Config, s: State, i: nat, t: Transport, late: bool)
    requires Numbers(c, s) && i < |s.threads| && s.threads[i].call == NoCall && s.threads[i].pc.Idle?
    requires Receive(s, i, t, late).Some?
    ensures Numbers(c, Receive(s, i, t, late).value)
  {
    hide Counter, Slots, Limits;
    var s' := Receive(s, i, t, late).value;
    if s.queues.At(t).items != [] {
      SizeChange(s.queues, t, s.queues.At(t).(items := s.queues.At(t).items[1..]));
    }
    CountMove(s, s', i, s'.threads[i]);
    SlotMove(s, s', i, s'.threads[i], AddrKey("", 0));
    LimitMove(c, s, s', i, s'.threads[i]);
  }

  lemma FinishNumbers(c: Config, s: State, i: nat)
    requires Owned(c, s) && Numbers(c, s) && i < |s.threads| && s.threads[i].call == NoCall &&
        s.threads[i].pc.Finishing?
    ensures Numbers(c, Finish(s, i, s.threads[i].pc.key, s.threads[i].pc.terminal, s.threads[i].pc.reason))
  {
    hide Owned, Counter, Slots, Limits, EntryOk;
    var pc := s.threads[i].pc;
    var s' := Finish(s, i, pc.key, pc.terminal, pc.reason);
    KnowThread(c, s, i);
    CountMove(s, s', i, s'.threads[i]);
    SlotMove(s, s', i, s'.threads[i], pc.key);
    LimitMove(c, s, s', i, s'.threads[i]);
    assert s'.entries.Keys == s.entries.Keys;
    assert |s'.entries| == |s'.entries.Keys|;
  }

  lemma GossipNumbers(c: Config, s: State, i: nat, ev: Event)
    requires Numbers(c, s) && i < |s.threads| && s.threads[i].call == NoCall && s.threads[i].pc.Discovering?
    requires ev.Gossip? && Discover(c, s, i, ev).Some?
    ensures Numbers(c, Discover(c, s, i, ev).value)
  {
    hide Counter, Slots, Limits, Upsert;
    var s' := Discover(c, s, i, ev).value;
    UpsertSize(s.entries, c.maxAddresses, ev.key, ev.ts, ev.network, c.freshnessThreshold, ev.now);
    assert s'.threads == s.threads[i := s'.threads[i]];
    CountMove(s, s', i, s'.threads[i]);
    SlotMove(s, s', i, s'.threads[i], ev.key);
    LimitMove(c, s, s', i, s'.threads[i]);
  }

  lemma UpsertSize(entries: Entries, limit: nat, k: AddrKey, ts: int, network: NetworkType, threshold: int, now: int)
    requires |entries| <= limit
    ensures var entries' := Upsert(entries, limit, k, ts, network, threshold, now).0;
            |entries'| <= limit && OnlyAt(entries, entries', k) && (k in entries ==> k in entries') &&
            Tries(entries', k) == Tries(entries, k)
  {
    var entries' := Upsert(entries, limit, k, ts, network, threshold, now).0;
    if k in entries {
      assert entries'.Keys == entries.Keys;
      assert |entries'| == |entries'.Keys|;
    }
  }

  lemma NoteNumbers(c: Config, s: State, i: nat, ev: Event)
    requires Numbers(c, s) && i < |s.threads| && s.threads[i].call == NoCall && s.threads[i].pc.Discovering?
    requires !ev.Gossip? && Discover(c, s, i, ev).Some?
    ensures Numbers(c, Discover(c, s, i, ev).value)
  {
    hide Counter, Slots, Limits;
    var s' := Discover(c, s, i, ev).value;
    CountMove(s, s', i, s'.threads[i]);
    SlotMove(s, s', i, s'.threads[i], s.threads[i].pc.key);
    LimitMove(c, s, s', i, s'.threads[i]);
    assert s'.entries.Keys == s.entries.Keys;
    assert |s'.entries| == |s'.entries.Keys|;
  }

  lemma DiscoverNumbers(c: Config, s: State, i: nat, ev: Event)
    requires Numbers(c, s) && i < |s.threads| && s.threads[i].call == NoCall && s.threads[i].pc.Discovering?
    requires Discover(c, s, i, ev).Some?
    ensures Numbers(c, Discover(c, s, i, ev).value)
  {
    hide Numbers;
    if ev.Gossip? {
      GossipNumbers(c, s, i, ev);
    } else {
      NoteNumbers(c, s, i, ev);
    }
  }

  lemma WorkerNumbers(c: Config, s: State, i: nat, ev: Event)
    requires Owned(c, s) && ValidConfig(c) && Numbers(c, s) && i < |s.threads| && s.threads[i].call == NoCall
    requires s.threads[i].role.Worker? && WorkerStep(c, s, i, s.threads[i].role.t, ev).Some?
    ensures Numbers(c, WorkerStep(c, s, i, s.threads[i].role.t, ev).value)
  {
    hide Owned, Numbers, Process, Finish, Discover, Receive;
    match s.threads[i].pc {
      case Idle => ReceiveNumbers(c, s, i, s.threads[i].role.t, ev == Late);
      case Received(_) | Refused(_) | Decrementing(_, _) | Resending(_, _, _) => OwnNumbers(c, s, i);
      case Finishing(_, _, _) => FinishNumbers(c, s, i);
      case Discovering(_) => DiscoverNumbers(c, s, i, ev);
      case _ => ProcessNumbers(c, s, i, ev);
    }
  }

  lemma OwnNumbers(c: Config, s: State, i: nat)
    requires Owned(c, s) && ValidConfig(c) && Numbers(c, s) && i < |s.threads| && s.threads[i].call == NoCall
    requires s.threads[i].role.Worker?
    requires s.threads[i].pc.Received? || s.threads[i].pc.Refused? || s.threads[i].pc.Decrementing? ||
        s.threads[i].pc.Resending?
    ensures var s' := WorkerStep(c, s, i, s.threads[i].role.t, Tau); s'.Some? && Numbers(c, s'.value)
  {
    hide Owned, Counter, Slots, Limits, Process, Finish, Discover, Receive;
    var th := s.threads[i];
    var s' := WorkerStep(c, s, i, th.role.t, Tau).value;
    OwnCounts(c, s, i);
    SlotMove(s, s', i, s'.threads[i], AddrKey("", 0));
    LimitMove(c, s, s', i, s'.threads[i]);
  }

  lemma OwnCounts(c: Config, s: State, i: nat)
    requires Owned(c, s) && ValidConfig(c) && Counter(s) && Budget(c, s) && i < |s.threads| &&
        s.threads[i].call == NoCall
    requires s.threads[i].role.Worker?
    requires s.threads[i].pc.Received? || s.threads[i].pc.Refused? || s.threads[i].pc.Decrementing? ||
        s.threads[i].pc.Resending?
    ensures var s' := WorkerStep(c, s, i, s.threads[i].role.t, Tau); s'.Some? && Counter(s'.value)
  {
    hide Owned, Counter, Process, Finish, Discover, Receive;
    var th := s.threads[i];
    var s' := WorkerStep(c, s, i, th.role.t, Tau).value;
    if th.pc.Decrementing? {
      CountBound(s, i);
      OutstandingFits(c, s);
      assert s'.outstanding == s.outstanding - 1;
    } else if th.pc.Resending? {
      SizeChange(s.queues, th.role.t, s.queues.At(th.role.t).(items := s.queues.At(th.role.t).items + [th.pc.key]));
    }
    CountMove(s, s', i, s'.threads[i]);
  }

  /** Every step keeps the numbers right. */
  lemma StepNumbers(c: Config, s: State, i: nat, ev: Event)
    requires Owned(c, s) && ValidConfig(c) && Numbers(c, s) && i < |s.threads| && Step(c, s, i, ev).Some?
    ensures Numbers(c, Step(c, s, i, ev).value)
  {
    hide Owned, Numbers, EnqueueStep, CloseStep, MainStep, SignalStep, WorkerStep;
    var th := s.threads[i];
    if th.call != NoCall {
      EnqueueNumbers(c, s, i);
    } else if th.pc.Closing? {
      CloseNumbers(c, s, i);
    } else {
      match th.role
      case MainThread => MainNumbers(c, s, i, ev);
      case SignalThread => SignalNumbers(c, s, i, ev);
      case Worker(_) => WorkerNumbers(c, s, i, ev);
    }
  }
}
