/** Termination detection: `outstanding` reaches zero exactly when no work is left anywhere, the
    queues then close, the workers drain them and leave, and nothing is lost on the way. */
module SchedulerTermination {
  import opened Base
  import opened Network
  import opened NodeStore
  import opened Scheduler
  import opened SchedulerInvariant
  import opened SchedulerOwnership
  import opened SchedulerCounting
  import opened SchedulerLifecycle
  import opened SchedulerTheorems
  import opened Tally

  /** No key sits in a queue, no thread but `i` has an address in hand, and no `enqueue` is under way. */
  ghost predicate NoOtherWork(s: State, i: nat) {
    s.queues.Size() == 0 &&
    forall j :: 0 <= j < |s.threads| ==> s.threads[j].call == NoCall && (j != i ==> KeyOf(s.threads[j].pc) == None)
  }

  /** The part of the invariant that the counting arguments use. */
  lemma Facts(c: Config, s: State)
    requires Inv(c, s)
    ensures Counter(s) && Budget(c, s) && Slots(s) && Limits(c, s)
    ensures Layout(c, s) && Waits(s) && Closers(s) && Exits(s) && Nets(c, s)
    ensures forall j :: 0 <= j < |s.threads| ==> RoleOk(s.threads[j])
    ensures forall j :: 0 <= j < |s.threads| && KeyOf(s.threads[j].pc).Some? ==>
              s.threads[j].role.Worker? && s.threads[j].pc.key in s.entries
  {
    hide EntryOk, PcOk;
    forall j | 0 <= j < |s.threads| ensures ThreadOk(c, s.queues, s.entries, s.threads[j]) {}
  }

  /** Once running, every `enqueue` under way belongs to a worker that still has its own address. */
  lemma CallerCounted(c: Config, s: State, j: nat)
    requires Inv(c, s) && s.Running() && j < |s.threads| && s.threads[j].call != NoCall
    ensures KeyOf(s.threads[j].pc).Some?
  {
    hide Inv;
    Facts(c, s);
    if s.threads[j].pc.Seeding? {
      SeederLeads(c, s, j);
    }
  }

  lemma WorkIsCounted(c: Config, s: State, i: nat)
    requires Inv(c, s) && s.Running() && i < |s.threads| && Load(s.threads[i]) == 1 && s.threads[i].call == NoCall
    ensures s.outstanding == 1 <==> NoOtherWork(s, i)
  {
    hide Inv, Counter;
    Facts(c, s);
    var idle := Thread(MainThread, Spawned, NoCall);
    var rest := s.threads[i := idle];
    TotalUpdate(s.threads, i, idle, Load);
    TotalZero(rest, Load);
    assert s.outstanding == s.queues.Size() + Total(rest, Load) + 1 by { Unfold(s); }
    if s.outstanding == 1 {
      forall j | 0 <= j < |s.threads|
          ensures s.threads[j].call == NoCall && (j != i ==> KeyOf(s.threads[j].pc) == None) {
        if j != i {
          assert Load(rest[j]) == 0;
          if s.threads[j].call != NoCall {
            CallerCounted(c, s, j);
          }
        }
      }
    }
  }

  lemma Unfold(s: State)
    requires Counter(s)
    ensures s.outstanding == s.queues.Size() + Total(s.threads, Load)
  {}

  /** When only thread `i` has an address in hand, no other address is live. */
  lemma OnlyLive(c: Config, s: State, i: nat, k: AddrKey)
    requires Inv(c, s) && NoOtherWork(s, i) && i < |s.threads| && k in ActiveKeys(s)
    ensures k in PcHeld(s.threads[i].pc)
  {
    assert Owned(c, s);
    hide Inv, Owned;
    LiveToken(c, s, k);
    assert InQueues(s.queues) == multiset{};
    var j := GatherWitness(s.threads, k, Held);
    assert j == i;
  }

  /** `finish` sees 1 exactly when it is the last: no entry is Queued or Processing, no key is queued,
      nobody else has work in hand and no frontier address is on its way to a queue. */
  lemma LastFinisher(c: Config, s: State, i: nat)
    requires ValidConfig(c) && Occurs(c, s) && i < |s.threads| && s.threads[i].pc.Decrementing?
    ensures s.outstanding == 1 <==> NoOtherWork(s, i)
    ensures s.outstanding == 1 ==> ActiveKeys(s) == {}
  {
    OccursInv(c, s);
    hide Occurs, Inv;
    Facts(c, s);
    RoleAt(c, s, i);
    assert !AtRest(s.threads[i]);
    WorkIsCounted(c, s, i);
    if s.outstanding == 1 {
      forall k | k in ActiveKeys(s) ensures false {
        OnlyLive(c, s, i, k);
        Settled(c, s, i);
      }
    }
  }

  lemma Settled(c: Config, s: State, i: nat)
    requires Inv(c, s) && i < |s.threads| && s.threads[i].pc.Decrementing?
    ensures s.threads[i].pc.key !in ActiveKeys(s)
  {
    hide EntryOk;
    assert ThreadOk(c, s.queues, s.entries, s.threads[i]);
  }

  // ---- once nothing is outstanding -----------------------------------------------------------------------

  /** Running with nothing outstanding: no thread has work, in any form. */
  lemma QuietIsEmpty(c: Config, s: State, j: nat)
    requires Inv(c, s) && s.Running() && s.outstanding == 0 && j < |s.threads|
    ensures s.queues.Size() == 0 && KeyOf(s.threads[j].pc) == None && s.threads[j].call == NoCall
  {
    hide Inv;
    Facts(c, s);
    TotalZero(s.threads, Load);
    assert Load(s.threads[j]) == 0;
    if s.threads[j].call != NoCall {
      CallerCounted(c, s, j);
    }
  }

  lemma QuietStays(c: Config, s: State, s': State, i: nat, ev: Event)
    requires ValidConfig(c) && Inv(c, s) && s.Running() && s.outstanding == 0
    requires i < |s.threads| && Step(c, s, i, ev) == Some(s')
    ensures s'.Running() && s'.outstanding == 0 && s'.entries == s.entries && s'.numProcessed == s.numProcessed
  {
    hide Inv, WorkerStep, EnqueueStep, Observe;
    Facts(c, s);
    QuietIsEmpty(c, s, i);
    RoleAt(c, s, i);
    hide CloseStep, MainStep, SignalStep;
    if s.threads[i].role.Worker? && !s.threads[i].pc.Closing? {
      assert s.queues.ip.items == [] && s.queues.tor.items == [] && s.queues.i2p.items == [];
      IdleWorker(c, s, s', i, s.threads[i].role.t, ev);
      MovedOnly(s, i, Exited);
    } else {
      OtherQuiet(c, s, s', i, ev);
    }
  }

  lemma MovedOnly(s: State, i: nat, pc: Pc)
    requires i < |s.threads| && s.Running() && s.threads[i].pc != Spawned
    ensures s.Go(i, pc).Running()
  {}

  /** The main thread has nothing left to do, and closing queues or raising the flag brings no work. */
  lemma OtherQuiet(c: Config, s: State, s': State, i: nat, ev: Event)
    requires i < |s.threads| && s.Running() && (i == 0 <==> s.threads[i].role.MainThread?)
    requires (s.threads[i].pc.Closing? && CloseStep(s, i) == s') ||
             (s.threads[i].role.MainThread? && MainStep(c, s, i, ev) == Some(s')) ||
             (s.threads[i].role.SignalThread? && SignalStep(s, i, ev) == Some(s'))
    ensures s'.Running() && s'.outstanding == s.outstanding && s'.entries == s.entries &&
        s'.numProcessed == s.numProcessed
  {
    hide Observe, Queues.Close;
  }

  /** A worker without an address, with nothing to receive, can only leave. */
  lemma IdleWorker(c: Config, s: State, s': State, i: nat, t: Transport, ev: Event)
    requires i < |s.threads| && KeyOf(s.threads[i].pc) == None && s.queues.At(t).items == []
    requires WorkerStep(c, s, i, t, ev) == Some(s')
    ensures s' == s.Go(i, Exited)
  {
    hide Advance, Discover, Finish;
  }

  /** From the first moment of a run at which nothing is outstanding, nothing ever is again, no entry
      changes, and every queue is closed or about to be. */
  lemma {:induction false} QuietForever(c: Config, s: State, s': State, more: seq<Choice>)
    requires ValidConfig(c) && Occurs(c, s) && s.Running() && s.outstanding == 0
    requires RunFrom(c, s, more) == Some(s')
    ensures s'.Running() && s'.outstanding == 0 && s'.entries == s.entries && s'.numProcessed == s.numProcessed
    ensures ActiveKeys(s') == {} && s'.queues.Size() == 0
    ensures forall t :: s'.queues.At(t).open ==> exists j :: 0 <= j < |s'.threads| && ClosingOn(s'.threads[j], t)
    decreases |more|
  {
    OccursInv(c, s);
    hide Occurs, Inv, Step;
    RunInv(c, s, s', more);
    if more != [] {
      var n := |more| - 1;
      var before := RunFrom(c, s, more[..n]).value;
      QuietForever(c, s, before, more[..n]);
      RunInv(c, s, before, more[..n]);
      QuietStays(c, before, s', more[n].thread, more[n].event);
    }
    Facts(c, s');
    QuietIsEmpty(c, s', 0);
    forall k | k in ActiveKeys(s') ensures false {
      QuietNoWork(c, s');
      OnlyLive(c, s', 0, k);
    }
  }

  lemma QuietNoWork(c: Config, s: State)
    requires Inv(c, s) && s.Running() && s.outstanding == 0
    ensures NoOtherWork(s, 0) && KeyOf(s.threads[0].pc) == None
  {
    hide Inv;
    forall j | 0 <= j < |s.threads| ensures s.threads[j].call == NoCall && KeyOf(s.threads[j].pc) == None {
      QuietIsEmpty(c, s, j);
    }
    QuietIsEmpty(c, s, 0);
  }

  // ---- the end of a run --------------------------------------------------------------------------------------

  predicate AllWorkersLeft(c: Config, s: State)
    requires |s.threads| == 2 + |c.pools|
  {
    forall i :: 2 <= i < |s.threads| ==> s.threads[i].pc == Exited
  }

  /** Threads that have left, or never work on addresses, hold nothing. */
  lemma LeftIdle(c: Config, s: State)
    requires Inv(c, s) && s.Running() && |s.threads| == 2 + |c.pools| && AllWorkersLeft(c, s)
    ensures forall j :: 0 <= j < |s.threads| ==> KeyOf(s.threads[j].pc) == None && s.threads[j].call == NoCall
    ensures s.outstanding == s.queues.Size()
  {
    hide Inv, Counter;
    Facts(c, s);
    forall j | 0 <= j < |s.threads| ensures KeyOf(s.threads[j].pc) == None && s.threads[j].call == NoCall {
      RoleAt(c, s, j);
      if j < 2 && s.threads[j].call != NoCall {
        CallerCounted(c, s, j);
      }
    }
    TotalZero(s.threads, Load);
    Unfold(s);
  }

  /** When every worker has returned and nobody pressed Ctrl+C, what is left over is exactly what sits in
      queues without workers; no entry is left in Processing. Runs cut short by `max_nodes` are included. */
  lemma EndOfRun(c: Config, s: State)
    requires ValidConfig(c) && Occurs(c, s) && s.Running() && !s.shutdown
    requires |s.threads| == 2 + |c.pools| && AllWorkersLeft(c, s)
    ensures forall t :: t in c.pools ==> s.queues.At(t).items == []
    ensures forall k :: k in ActiveKeys(s) <==> exists t :: k in s.queues.At(t).items
    ensures forall k :: k in s.entries ==> s.entries[k].state != Processing
    ensures s.outstanding == 0 <==> forall t :: t !in c.pools ==> s.queues.At(t).items == []
    ensures s.outstanding == 0 <==> ActiveKeys(s) == {}
  {
    OccursInv(c, s);
    hide Occurs, Inv, ActiveKeys;
    LeftIdle(c, s);
    PoolsDrained(c, s);
    forall k ensures (k in ActiveKeys(s) <==> exists t :: k in s.queues.At(t).items) &&
                     (k in s.entries ==> s.entries[k].state != Processing) {
      LiveIsQueued(c, s, k);
    }
    NoneQueued(s);
    if s.outstanding != 0 {
      var t :| s.queues.At(t).items != [];
      assert s.queues.At(t).items[0] in s.queues.At(t).items;
    }
  }

  lemma PoolsDrained(c: Config, s: State)
    requires Inv(c, s) && !s.shutdown && |s.threads| == 2 + |c.pools| && AllWorkersLeft(c, s)
    ensures forall t :: t in c.pools ==> s.queues.At(t).items == []
  {
    hide Inv;
    Facts(c, s);
    forall t | t in c.pools ensures s.queues.At(t).items == [] {
      var p: nat :| p < |c.pools| && c.pools[p] == t;
      RoleAt(c, s, 2 + p);
    }
  }

  lemma NoneQueued(s: State)
    ensures s.queues.Size() == 0 <==> forall t :: s.queues.At(t).items == []
  {
    assert s.queues.Size() == |s.queues.At(OverIp).items| + |s.queues.At(OverTor).items| + |s.queues.At(OverI2p).items|;
  }

  lemma LiveIsQueued(c: Config, s: State, k: AddrKey)
    requires Inv(c, s)
    requires forall j :: 0 <= j < |s.threads| ==> KeyOf(s.threads[j].pc) == None && s.threads[j].call == NoCall
    ensures k in ActiveKeys(s) <==> exists t :: k in s.queues.At(t).items
    ensures k in s.entries && s.entries[k].Active() ==> s.entries[k].state == Queued
  {
    assert Owned(c, s);
    hide Inv, EntryOk, ThreadOk;
    GatherNone(s.threads, Held);
    GatherNone(s.threads, Settling);
    LiveToken(c, s, k);
    assert k in Tokens(s) <==>
      k in s.queues.At(OverIp).items || k in s.queues.At(OverTor).items || k in s.queues.At(OverI2p).items;
    if k in ActiveKeys(s) {
      var t :| k in s.queues.At(t).items;
      assert QueuedAt(s.entries, k, t);
    }
  }

  /** The crawler proper, with settings that passed validation, leaves nothing behind. */
  lemma CrawlDrains(c: Config, s: State)
    requires ValidConfig(c) && PooledNetworks(c) && c.filterSeeds
    requires Occurs(c, s) && s.Running() && !s.shutdown && |s.threads| == 2 + |c.pools| && AllWorkersLeft(c, s)
    ensures s.outstanding == 0 && ActiveKeys(s) == {}
  {
    OccursInv(c, s);
    hide Occurs, Inv, PooledNetworks;
    EndOfRun(c, s);
    forall t | t !in c.pools ensures s.queues.At(t).items == [] {
      if s.queues.At(t).items != [] {
        QueueHasPool(c, s, t);
      }
    }
  }

  lemma QueueHasPool(c: Config, s: State, t: Transport)
    requires Inv(c, s) && PooledNetworks(c) && c.filterSeeds && s.queues.At(t).items != []
    ensures t in c.pools
  {
    hide Inv;
    QueuedNetwork(c, s, s.queues.At(t).items[0], t);
  }

  lemma QueuedNetwork(c: Config, s: State, k: AddrKey, t: Transport)
    requires Inv(c, s) && c.filterSeeds && k in s.queues.At(t).items
    ensures k in s.entries && s.entries[k].network in c.enabled && s.entries[k].network.Carrier() == t
  {
    hide EntryOk, ThreadOk;
    assert QueuedAt(s.entries, k, t);
  }
}
