/** What holds in every run of the crawler, whatever the peers say and however the threads interleave. */
module SchedulerTheorems {
  import opened Base
  import opened Network
  import opened NodeStore
  import opened Scheduler
  import opened SchedulerInvariant
  import opened SchedulerOwnership
  import opened SchedulerCounting
  import opened SchedulerLifecycle
  import opened Tally

  ghost predicate Inv(c: Config, s: State) {
    Owned(c, s) && Numbers(c, s) && Life(c, s)
  }

  lemma StepInv(c: Config, s: State, s': State, i: nat, ev: Event)
    requires ValidConfig(c) && Inv(c, s) && i < |s.threads| && Step(c, s, i, ev) == Some(s')
    ensures Inv(c, s')
  {
    hide Owned, Numbers, Life, Step;
    assert Budget(c, s) by { BudgetOf(c, s); }
    StepOwned(c, s, i, ev);
    StepNumbers(c, s, i, ev);
    StepLife(c, s, s', i, ev);
  }

  lemma BudgetOf(c: Config, s: State)
    requires Numbers(c, s)
    ensures Budget(c, s)
  {}

  lemma InitInv(c: Config)
    requires ValidConfig(c)
    ensures Inv(c, Init(c))
  {
    hide EntryOk, PcOk;
    InitOwned(c);
    InitNumbers(c);
    InitLife(c);
  }

  lemma InitOwned(c: Config)
    ensures Owned(c, Init(c))
  {
    InitUnique(c);
    InitQueues(c);
    InitThreads(c);
  }

  lemma InitUnique(c: Config)
    ensures Unique(Init(c))
  {
    hide Gather;
    var s := Init(c);
    GatherNone(s.threads, Held);
    assert Tokens(s) == InQueues(s.queues) == multiset{};
  }

  lemma InitThreads(c: Config)
    ensures ThreadsOk(c, Init(c)) && ActiveHeld(Init(c)) && EntriesOk(c, Init(c))
  {
    hide EntryOk, PcOk, Gather;
  }

  lemma InitQueues(c: Config)
    ensures QueuesOk(Init(c))
  {
    forall t ensures Init(c).queues.At(t).items == [] {}
  }

  lemma InitNumbers(c: Config)
    ensures Numbers(c, Init(c))
  {
    var s := Init(c);
    TotalZero(s.threads, Load);
    TotalZero(s.threads, Slot);
    assert AttemptsOf(s.entries) == map[];
  }

  lemma InitLife(c: Config)
    ensures Life(c, Init(c))
  {}

  /** The invariant survives any further schedule. */
  lemma {:induction false} RunInv(c: Config, start: State, s: State, schedule: seq<Choice>)
    requires ValidConfig(c) && Inv(c, start) && RunFrom(c, start, schedule) == Some(s)
    ensures Inv(c, s)
    decreases |schedule|
  {
    hide Inv, Step;
    if schedule != [] {
      var n := |schedule| - 1;
      var before := RunFrom(c, start, schedule[..n]).value;
      RunInv(c, start, before, schedule[..n]);
      StepInv(c, before, s, schedule[n].thread, schedule[n].event);
    }
  }

  lemma OccursInv(c: Config, s: State)
    requires ValidConfig(c) && Occurs(c, s)
    ensures Inv(c, s)
  {
    hide Inv;
    var schedule :| RunFrom(c, Init(c), schedule) == Some(s);
    InitInv(c);
    RunInv(c, Init(c), s, schedule);
  }

  // ---- the outstanding counter ------------------------------------------------------------------------

  ghost function ActiveKeys(s: State): set<AddrKey> {
    set k | k in s.entries && s.entries[k].Active()
  }

  lemma PcActive(c: Config, qs: Queues, e: NodeEntry, pc: Pc)
    requires KeyOf(pc).Some? && PcOk(c, qs, e, pc)
    ensures e.Active() <==> !pc.Decrementing?
  {
    hide EntryOk, Between, During;
  }

  /** A held address is live unless its holder is settling it. */
  lemma HeldActive(c: Config, qs: Queues, entries: Entries, th: Thread, k: AddrKey)
    requires ThreadOk(c, qs, entries, th) && k in Held(th)
    ensures k in entries && (k in Settling(th) ==> !entries[k].Active()) && (k !in Settling(th) ==> entries[k].Active())
  {
    if KeyOf(th.pc).Some? {
      PcActive(c, qs, entries[th.pc.key], th.pc);
    }
    hide PcOk;
  }

  lemma SettlingHeld(th: Thread)
    ensures Settling(th) <= Held(th)
  {}

  lemma LiveToken(c: Config, s: State, k: AddrKey)
    requires Owned(c, s)
    ensures k in ActiveKeys(s) <==> k in Tokens(s) && k !in Gather(s.threads, Settling)
  {
    hide EntryOk, ThreadOk, Held, Settling;
    if k in Gather(s.threads, Settling) {
      var i := GatherWitness(s.threads, k, Settling);
      SettlingHeld(s.threads[i]);
      HeldActive(c, s.queues, s.entries, s.threads[i], k);
    } else if k in Gather(s.threads, Held) {
      var i := GatherWitness(s.threads, k, Held);
      if k in Settling(s.threads[i]) {
        GatherUpdate(s.threads, i, s.threads[i], Settling);
      }
      HeldActive(c, s.queues, s.entries, s.threads[i], k);
    } else if k in Tokens(s) {
      assert k in s.queues.At(OverIp).items || k in s.queues.At(OverTor).items || k in s.queues.At(OverI2p).items;
      var t :| k in s.queues.At(t).items;
      assert QueuedAt(s.entries, k, t);
    }
  }

  /** `outstanding` is the number of Queued or Processing addresses, less those marked but not yet
      counted, plus those already terminal but not yet discounted. */
  lemma OutstandingExact(c: Config, s: State)
    requires ValidConfig(c) && Occurs(c, s)
    ensures s.outstanding + Total(s.threads, Waiting) == |ActiveKeys(s)| + |Gather(s.threads, Settling)|
  {
    OccursInv(c, s);
    assert Owned(c, s) && Unique(s) && Counter(s);
    hide Occurs, Inv, Owned, Settling;
    LiveTokens(c, s);
    HeldSize(s.threads);
    assert |InQueues(s.queues)| == s.queues.Size();
  }

  /** All tokens but those being settled are of live addresses, one each. */
  lemma LiveTokens(c: Config, s: State)
    requires Owned(c, s) && Unique(s)
    ensures |Tokens(s)| == |ActiveKeys(s)| + |Gather(s.threads, Settling)|
  {
    hide Owned, Held, Settling, Gather;
    forall i | 0 <= i < |s.threads| ensures Settling(s.threads[i]) <= Held(s.threads[i]) {
      SettlingHeld(s.threads[i]);
    }
    GatherWithin(s.threads, Settling, Held);
    var live := Tokens(s) - Gather(s.threads, Settling);
    forall k ensures live[k] <= 1 && (k in live <==> k in ActiveKeys(s)) {
      LiveToken(c, s, k);
      assert Tokens(s)[k] <= 1;
    }
    hide ActiveKeys, Unique;
    DistinctSize(live, ActiveKeys(s));
    assert Gather(s.threads, Settling) <= Tokens(s);
    assert |live| == |Tokens(s)| - |Gather(s.threads, Settling)|;
  }

  /** A decrement never wraps: it takes exactly one off a counter that is at least one. */
  lemma DecrementExact(c: Config, s: State, s': State, i: nat)
    requires ValidConfig(c) && Occurs(c, s) && i < |s.threads| && Settling(s.threads[i]) != multiset{}
    requires Step(c, s, i, Tau) == Some(s')
    ensures s.outstanding >= 1 && s'.outstanding == s.outstanding - 1
  {
    OccursInv(c, s);
    hide Owned, Numbers, Life, Occurs, Step;
    NumbersOf(c, s);
    ThreadRole(c, s, i);
    StepDispatch(c, s, i);
    assert 1 <= s.outstanding <= |s.entries| by {
      hide Counter;
      CountBound(s, i);
      OutstandingFits(c, s);
    }
    DecrementShape(c, s, s', i);
  }

  lemma NumbersOf(c: Config, s: State)
    requires Numbers(c, s)
    ensures Budget(c, s) && Counter(s) && Slots(s) && Limits(c, s)
  {}

  lemma DecrementShape(c: Config, s: State, s': State, i: nat)
    requires i < |s.threads| && Settling(s.threads[i]) != multiset{} && RoleOk(s.threads[i])
    requires s'== if s.threads[i].call != NoCall then EnqueueStep(c, s, i) else s'
    requires s.threads[i].call == NoCall ==>
               s.threads[i].role.Worker? && WorkerStep(c, s, i, s.threads[i].role.t, Tau) == Some(s')
    requires 1 <= s.outstanding < U64
    ensures s'.outstanding == s.outstanding - 1
  {
    hide Process, Discover, Receive, Finish;
    assert s.threads[i].call.Discarded? || s.threads[i].pc.Decrementing?;
    assert Wrap(s.outstanding - 1) == s.outstanding - 1;
  }

  lemma ThreadRole(c: Config, s: State, i: nat)
    requires Owned(c, s) && i < |s.threads|
    ensures RoleOk(s.threads[i]) && (KeyOf(s.threads[i].pc).Some? ==> s.threads[i].role.Worker?)
  {
    hide EntryOk, PcOk;
    assert ThreadOk(c, s.queues, s.entries, s.threads[i]);
  }

  /** Where a step with no outside event leads. */
  lemma StepDispatch(c: Config, s: State, i: nat)
    requires i < |s.threads| && RoleOk(s.threads[i]) && (KeyOf(s.threads[i].pc).Some? ==> s.threads[i].role.Worker?)
    ensures s.threads[i].call != NoCall ==> Step(c, s, i, Tau) == Some(EnqueueStep(c, s, i))
    ensures s.threads[i].call == NoCall && KeyOf(s.threads[i].pc).Some? ==>
              Step(c, s, i, Tau) == if s.Running() then WorkerStep(c, s, i, s.threads[i].role.t, Tau) else None
  {
    hide EnqueueStep, WorkerStep;
  }
}
