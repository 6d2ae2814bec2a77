/** What becomes of addresses once `max_nodes` is used up, and that a verdict once given stands. */
module SchedulerLimit {
  import opened Base
  import opened Network
  import opened NodeStore
  import opened Scheduler
  import opened SchedulerInvariant
  import opened SchedulerOwnership
  import opened SchedulerLifecycle
  import opened SchedulerTheorems
  import opened SchedulerTermination
  import opened SchedulerBounds
  import opened SchedulerEntries

  predicate Final(e: NodeEntry) { e.state in {Reachable, Unreachable, HandshakeFailed, BudgetDiscarded} }

  /** A verdict stands: no step of any thread changes it. */
  lemma VerdictStands(c: Config, s: State, s': State, i: nat, ev: Event, k: AddrKey)
    requires Inv(c, s) && i < |s.threads| && Step(c, s, i, ev) == Some(s') && k in s.entries && Final(s.entries[k])
    ensures k in s'.entries && s'.entries[k].state == s.entries[k].state
  {
    StepEntries(c, s, s', i, ev);
    assert Owned(c, s);
    KnowThread(c, s, i);
    hide Inv, Owned, Step;
    EditedActive(c, s, i, k);
    assert EntryStep(s, i, ev, k, s.entries[k], s'.entries[k]);
  }

  /** An entry that may be edited, or given up, is live. */
  lemma EditedActive(c: Config, s: State, i: nat, k: AddrKey)
    requires i < |s.threads| && k in s.entries && ThreadOk(c, s.queues, s.entries, s.threads[i])
    ensures Edits(s, i, k) || s.threads[i].call == Rejected(k) ==> s.entries[k].Active()
  {
    if KeyOf(s.threads[i].pc).Some? {
      PcActive(c, s.queues, s.entries[s.threads[i].pc.key], s.threads[i].pc);
    }
    hide PcOk;
  }

  /** Every node slot is taken. */
  predicate Full(c: Config, s: State) { TryReserve(c, s.numProcessed) == None }

  /** A refusal, recorded or about to be, means just that. */
  lemma LimitMeansFull(c: Config, s: State, i: nat)
    requires ValidConfig(c) && Occurs(c, s)
    requires s.nodeLimitReached || (i < |s.threads| && s.threads[i].pc.Refused?)
    ensures Full(c, s)
  {
    hide Occurs;
    assert RunFrom(c, s, []) == Some(s);
    NodeLimit(c, s, s, i, []);
  }

  lemma FullStays(c: Config, s: State, s': State, i: nat, ev: Event)
    requires Full(c, s) && i < |s.threads| && Step(c, s, i, ev) == Some(s')
    ensures Full(c, s')
  {
    hide Step;
    OnlyReserve(c, s, s', i, ev);
  }

  /** The thread has received `k` and is about to discard it. */
  predicate Discarding(th: Thread, k: AddrKey) {
    th.pc == Received(k) || th.pc == Refused(k) || th.pc == Finishing(k, BudgetDiscarded, None)
  }

  lemma OwnDiscard(c: Config, s: State, s': State, j: nat, ev: Event, k: AddrKey)
    requires Full(c, s) && j < |s.threads| && Discarding(s.threads[j], k) && s.threads[j].call == NoCall
    requires s.threads[j].role.Worker? && k in s.entries && s.entries[k].Active() && Step(c, s, j, ev) == Some(s')
    ensures j < |s'.threads|
    ensures Discarding(s'.threads[j], k) || (k in s'.entries && s'.entries[k].state == BudgetDiscarded)
  {
    hide Process, Receive, Discover, Queues.TrySend;
  }

  lemma DiscardStep(c: Config, s: State, s': State, i: nat, ev: Event, j: nat, k: AddrKey)
    requires Inv(c, s) && Full(c, s) && i < |s.threads| && Step(c, s, i, ev) == Some(s')
    requires j < |s.threads| && Discarding(s.threads[j], k)
    ensures j < |s'.threads|
    ensures Discarding(s'.threads[j], k) || (k in s'.entries && s'.entries[k].state == BudgetDiscarded)
  {
    assert Owned(c, s);
    KnowThread(c, s, i);
    KnowThread(c, s, j);
    PcActive(c, s.queues, s.entries[k], s.threads[j].pc);
    assert RoleOk(s.threads[i]) && RoleOk(s.threads[j]);
    hide Inv, Owned, Step, ThreadOk, PcOk;
    StepEffects(c, s, i, ev);
    if i == j {
      OwnDiscard(c, s, s', j, ev, k);
    }
  }

  /** Once the node limit is used up, by a refusal or exactly, every key a worker then receives ends
      BudgetDiscarded, in every run: until it does, its worker is on the way to discarding it, and
      nothing takes the verdict back. */
  lemma {:induction false} DiscardedAfterLimit(c: Config, s: State, s': State, j: nat, k: AddrKey, more: seq<Choice>)
    requires ValidConfig(c) && Occurs(c, s) && Full(c, s) && RunFrom(c, s, more) == Some(s')
    requires j < |s.threads| && s.threads[j].pc == Received(k)
    ensures Full(c, s') && j < |s'.threads|
    ensures Discarding(s'.threads[j], k) || (k in s'.entries && s'.entries[k].state == BudgetDiscarded)
    ensures s'.threads[j].pc.Exited? ==> k in s'.entries && s'.entries[k].state == BudgetDiscarded
    decreases |more|
  {
    hide Occurs, Inv, Step, Full, Init;
    OccursInv(c, s);
    if more != [] {
      var n := |more| - 1;
      var before := RunFrom(c, s, more[..n]).value;
      hide RunFrom, Discarding;
      DiscardedAfterLimit(c, s, before, j, k, more[..n]);
      RunInv(c, s, before, more[..n]);
      DiscardOn(c, before, s', more[n].thread, more[n].event, j, k);
    }
  }

  lemma DiscardOn(c: Config, s: State, s': State, i: nat, ev: Event, j: nat, k: AddrKey)
    requires Inv(c, s) && Full(c, s) && i < |s.threads| && Step(c, s, i, ev) == Some(s') && j < |s.threads|
    requires Discarding(s.threads[j], k) || (k in s.entries && s.entries[k].state == BudgetDiscarded)
    ensures Full(c, s') && j < |s'.threads|
    ensures Discarding(s'.threads[j], k) || (k in s'.entries && s'.entries[k].state == BudgetDiscarded)
    ensures s'.threads[j].pc.Exited? ==> k in s'.entries && s'.entries[k].state == BudgetDiscarded
  {
    hide Inv, Step, Full;
    FullStays(c, s, s', i, ev);
    if Discarding(s.threads[j], k) {
      DiscardStep(c, s, s', i, ev, j, k);
    } else {
      VerdictStands(c, s, s', i, ev, k);
      SameThreads(c, s, s', i, ev);
    }
  }

  lemma SameThreads(c: Config, s: State, s': State, i: nat, ev: Event)
    requires Inv(c, s) && i < |s.threads| && Step(c, s, i, ev) == Some(s')
    ensures |s'.threads| == |s.threads|
  {
    hide Inv, Step;
    Facts(c, s);
    StepEffects(c, s, i, ev);
  }
}
