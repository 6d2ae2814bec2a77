/** A variant for the whole scheduler: every step that is not mere repetition uses up some of a fixed
    budget, so a crawl ends whatever peers send; and it never ends stuck. */
module SchedulerVariant {
  import opened Base
  import opened Network
  import opened NodeStore
  import opened Scheduler
  import opened SchedulerInvariant
  import opened SchedulerOwnership
  import opened SchedulerCounting
  import opened SchedulerLifecycle
  import opened SchedulerTheorems
  import opened SchedulerTermination
  import opened SchedulerBounds
  import opened Tally

  // ---- what a step does to the set of known and of stale addresses -----------------------------------------

  function StaleKeys(entries: Entries): set<AddrKey> {
    set k | k in entries && entries[k].state == StaleDiscarded
  }

  /** No address appears, none is lifted from stale, none becomes stale. */
  ghost predicate Plain(s: State, s': State) {
    s'.entries.Keys == s.entries.Keys && StaleKeys(s'.entries) == StaleKeys(s.entries)
  }

  lemma PlainPut(s: State, k: AddrKey, e: NodeEntry)
    requires k in s.entries && s.entries[k].state != StaleDiscarded && e.state != StaleDiscarded
    ensures Plain(s, s.Put(k, e))
  {}

  lemma LivePc(c: Config, s: State, i: nat)
    requires Owned(c, s) && i < |s.threads| && KeyOf(s.threads[i].pc).Some?
    ensures var k := s.threads[i].pc.key; k in s.entries && s.entries[k].state != StaleDiscarded
    ensures s.threads[i].pc.Finishing? ==> s.threads[i].pc.terminal != StaleDiscarded
  {
    hide EntryOk, Unique, QueuesOk, ActiveHeld, EntriesOk, Between, During, Numbered, GivenUp;
    assert ThreadOk(c, s.queues, s.entries, s.threads[i]);
  }

  lemma AdvanceLive(c: Config, e: NodeEntry, pc: Pc, ev: Event)
    requires Advance(c, e, pc, ev).Some? && e.state != StaleDiscarded
    ensures Advance(c, e, pc, ev).value.0.state != StaleDiscarded
  {}

  lemma PlainEnqueue(c: Config, s: State, i: nat)
    requires Owned(c, s) && i < |s.threads| && s.threads[i].call != NoCall
    ensures Plain(s, EnqueueStep(c, s, i))
  {
    hide Owned, ThreadOk, EntryOk, Held, Queues.TrySend;
    var k := s.threads[i].call.child;
    KnowThread(c, s, i);
    CallAdvance(c, s.queues, s.entries, s.threads[i], NoCall);
  }

  lemma PlainProcess(c: Config, s: State, i: nat, ev: Event)
    requires Owned(c, s) && i < |s.threads| && Process(c, s, i, ev).Some?
    ensures Plain(s, Process(c, s, i, ev).value)
  {
    hide Owned, Advance;
    LivePc(c, s, i);
    var k := s.threads[i].pc.key;
    AdvanceLive(c, s.entries[k], s.threads[i].pc, ev);
    PlainPut(s, k, Advance(c, s.entries[k], s.threads[i].pc, ev).value.0);
  }

  lemma PlainWorker(c: Config, s: State, s': State, i: nat, t: Transport, ev: Event)
    requires Owned(c, s) && i < |s.threads| && WorkerStep(c, s, i, t, ev) == Some(s') && !ev.Gossip?
    ensures Plain(s, s')
  {
    hide Owned, Process, Upsert, Receive, Queues.TrySend;
    var pc := s.threads[i].pc;
    if KeyOf(pc).Some? {
      LivePc(c, s, i);
    }
    if pc.Idle? {
      ReceiveKeeps(s, i, t, ev == Late);
    }
    if Process(c, s, i, ev) == Some(s') {
      PlainProcess(c, s, i, ev);
    }
  }

  // ---- the variant ---------------------------------------------------------------------------------------------

  /** How many more steps a thread can take on what it has in hand. */
  function Weight(th: Thread): nat {
    (match th.pc
     case Spawned | SignalDone | Exited => 0
     case Idle => 1
     case Seeding => 6
     case AwaitSignal => 7
     case Interrupted => 6
     case Closing(todo) => 2 + |todo|
     case Decrementing(_, _) => 9
     case Finishing(_, _, _) => 10
     case Refused(_) => 11
     case Received(_) => 12
     case Resending(_, _, _) => 14
     case Requeueing(_, _, _) => 15
     case ConnectLost(_, _) | HandshakeLost(_, _, _) | Collected(_) => 16
     case Discovering(_) => 17
     case AwaitingPeer(_) => 18
     case SendingVersion(_) => 19
     case Connected(_) => 20
     case Connecting(_) => 21
     case Started(_) => 22
     case Reserved(_) => 23) +
    (match th.call
     case NoCall => 0 case Discarded(_) => 1 case Rejected(_) => 2 case Counted(_) => 13 case Marked(_) => 14)
  }

  /** Room for new addresses, stale addresses that may be lifted, slots that may be reserved, keys to
      receive, and what the threads have in hand. */
  ghost function Potential(c: Config, s: State): int {
    16 * (c.maxAddresses - |s.entries|) + 15 * |StaleKeys(s.entries)| +
    12 * (c.maxAddresses * c.handshakeAttempts - s.numProcessed) + 12 * s.queues.Size() + Total(s.threads, Weight)
  }

  lemma PotentialIsNatural(c: Config, s: State)
    requires Inv(c, s)
    ensures Potential(c, s) >= 0
  {
    hide Inv;
    Facts(c, s);
    BoundedWork(c, s);
  }

  /** A step that leaves the known and stale addresses alone changes the potential by the rest. */
  lemma PlainPotential(c: Config, s: State, s': State, i: nat, th': Thread)
    requires Plain(s, s') && i < |s.threads| && s'.threads == s.threads[i := th']
    ensures Potential(c, s') - Potential(c, s) ==
              12 * (s.numProcessed - s'.numProcessed) + 12 * (s'.queues.Size() - s.queues.Size())
              + Weight(th') - Weight(s.threads[i])
  {
    hide Weight, StaleKeys;
    TotalUpdate(s.threads, i, th', Weight);
    assert |s'.entries.Keys| == |s'.entries|;
    assert |s.entries.Keys| == |s.entries|;
  }

  lemma EnqueueUses(c: Config, s: State, i: nat)
    requires Owned(c, s) && i < |s.threads| && s.threads[i].call != NoCall
    ensures Potential(c, EnqueueStep(c, s, i)) < Potential(c, s)
  {
    hide Owned, Plain, Potential;
    var s' := EnqueueStep(c, s, i);
    PlainEnqueue(c, s, i);
    PlainPotential(c, s, s', i, s'.threads[i]);
    if s.threads[i].call.Counted? {
      var k := s.threads[i].call.child;
      var t := if k in s.entries then s.entries[k].network.Carrier() else OverIp;
      SizeChange(s.queues, t, s.queues.At(t).(items := s.queues.At(t).items + [k]));
    }
  }

  lemma CloseUses(c: Config, s: State, i: nat)
    requires i < |s.threads| && s.threads[i].call == NoCall && s.threads[i].pc.Closing?
    ensures Potential(c, CloseStep(s, i)) < Potential(c, s)
  {
    hide Potential;
    var s' := CloseStep(s, i);
    var todo := s.threads[i].pc.todo;
    assert Plain(s, s');
    PlainPotential(c, s, s', i, s'.threads[i]);
    if todo != [] {
      SizeChange(s.queues, todo[0], s.queues.At(todo[0]).(open := false));
    }
  }

  lemma ControlUses(c: Config, s: State, s': State, i: nat, ev: Event)
    requires i < |s.threads| && s.threads[i].call == NoCall && !ev.Seed?
    requires MainStep(c, s, i, ev) == Some(s') || SignalStep(s, i, ev) == Some(s')
    ensures Potential(c, s') < Potential(c, s)
  {
    hide Potential, Observe;
    assert Plain(s, s');
    PlainPotential(c, s, s', i, s'.threads[i]);
  }

  lemma AdvanceWeight(c: Config, e: NodeEntry, pc: Pc, ev: Event)
    requires Advance(c, e, pc, ev).Some?
    ensures Weight(Thread(MainThread, Advance(c, e, pc, ev).value.1, NoCall)) < Weight(Thread(MainThread, pc, NoCall))
  {}

  lemma ProcessUses(c: Config, s: State, i: nat, ev: Event)
    requires Owned(c, s) && i < |s.threads| && s.threads[i].call == NoCall && Process(c, s, i, ev).Some?
    ensures Potential(c, Process(c, s, i, ev).value) < Potential(c, s)
  {
    hide Owned, Potential, Plain, Advance;
    var s' := Process(c, s, i, ev).value;
    PlainProcess(c, s, i, ev);
    AdvanceWeight(c, s.entries[s.threads[i].pc.key], s.threads[i].pc, ev);
    PlainPotential(c, s, s', i, s'.threads[i]);
  }

  lemma ReceiveUses(c: Config, s: State, i: nat, t: Transport, late: bool)
    requires i < |s.threads| && s.threads[i].call == NoCall && s.threads[i].pc.Idle? && Receive(s, i, t, late).Some?
    ensures Potential(c, Receive(s, i, t, late).value) < Potential(c, s)
  {
    hide Potential;
    var s' := Receive(s, i, t, late).value;
    assert Plain(s, s');
    PlainPotential(c, s, s', i, s'.threads[i]);
    if s.queues.At(t).items != [] {
      SizeChange(s.queues, t, s.queues.At(t).(items := s.queues.At(t).items[1..]));
    }
  }

  lemma OwnUses(c: Config, s: State, s': State, i: nat, t: Transport, ev: Event)
    requires Owned(c, s) && i < |s.threads| && s.threads[i].call == NoCall && WorkerStep(c, s, i, t, ev) == Some(s')
    requires var pc := s.threads[i].pc; pc.Received? || pc.Refused? || pc.Finishing? || pc.Decrementing?
    ensures Potential(c, s') < Potential(c, s)
  {
    hide Owned, Potential, Plain, WorkerStep, Weight;
    assert !ev.Gossip? by { WorkerEvents(c, s, i, t, ev); }
    PlainWorker(c, s, s', i, t, ev);
    OwnDelta(c, s, s', i, t, ev);
    PlainPotential(c, s, s', i, s'.threads[i]);
  }

  lemma OwnDelta(c: Config, s: State, s': State, i: nat, t: Transport, ev: Event)
    requires i < |s.threads| && s.threads[i].call == NoCall && WorkerStep(c, s, i, t, ev) == Some(s')
    requires var pc := s.threads[i].pc; pc.Received? || pc.Refused? || pc.Finishing? || pc.Decrementing?
    ensures |s'.threads| == |s.threads| && s'.threads == s.threads[i := s'.threads[i]] && s'.queues == s.queues
    ensures 12 * (s.numProcessed - s'.numProcessed) + Weight(s'.threads[i]) < Weight(s.threads[i])
  {
    hide Process, Receive, Discover;
  }

  lemma ResendUses(c: Config, s: State, s': State, i: nat, t: Transport, ev: Event)
    requires i < |s.threads| && s.threads[i].call == NoCall && WorkerStep(c, s, i, t, ev) == Some(s')
    requires s.threads[i].pc.Resending?
    ensures Potential(c, s') < Potential(c, s)
  {
    hide Potential, Process, Receive, Discover, Finish;
    assert s'.entries == s.entries;
    assert Plain(s, s');
    hide Plain;
    PlainPotential(c, s, s', i, s'.threads[i]);
    SizeChange(s.queues, t, s.queues.At(t).(items := s.queues.At(t).items + [s.threads[i].pc.key]));
  }

  // ---- news ------------------------------------------------------------------------------------------------------

  lemma StaleSize(entries: Entries, k: AddrKey, e: NodeEntry)
    ensures |StaleKeys(entries[k := e])| ==
              |StaleKeys(entries)| - (if k in StaleKeys(entries) then 1 else 0) +
                  (if e.state == StaleDiscarded then 1 else 0)
  {
    var was := StaleKeys(entries);
    if e.state == StaleDiscarded {
      assert StaleKeys(entries[k := e]) == was + {k};
    } else {
      assert StaleKeys(entries[k := e]) == was - {k};
    }
  }

  /** A gossiped or seeded address either is new, or lifts a stale entry, or changes nothing but a timestamp. */
  lemma NewsUses(c: Config, s: State, s': State, i: nat, k: AddrKey, e: NodeEntry, call: Call)
    requires i < |s.threads| && s.threads[i].call == NoCall && s' == s.(entries := s.entries[k := e]).InCall(i, call)
    requires call == NoCall || call == Marked(k)
    requires if k !in s.entries then (e.state == StaleDiscarded && call == NoCall) || (e.state != StaleDiscarded)
             else if call == NoCall then (e.state == StaleDiscarded <==> s.entries[k].state == StaleDiscarded)
             else s.entries[k].state == StaleDiscarded && e.state != StaleDiscarded
    ensures if k !in s.entries || call != NoCall then Potential(c, s') < Potential(c, s)
            else Potential(c, s') == Potential(c, s)
  {
    hide StaleKeys;
    StaleSize(s.entries, k, e);
    TotalUpdate(s.threads, i, s.threads[i].(call := call), Weight);
    if k in s.entries {
      assert s.entries[k := e].Keys == s.entries.Keys;
      assert |s.entries[k := e].Keys| == |s.entries[k := e]|;
    }
    assert k in StaleKeys(s.entries) <==>
        k in s.entries && s.entries[k].state == StaleDiscarded by { StaleMember(s.entries, k); }
  }

  lemma StaleMember(entries: Entries, k: AddrKey)
    ensures k in StaleKeys(entries) <==> k in entries && entries[k].state == StaleDiscarded
  {}

  /** A step is repetition when a peer or a seed repeats an address and nothing but a timestamp can change,
      or when a message is counted. */
  predicate Repeats(s: State, s': State, ev: Event) {
    (ev.Gossip? || ev.Seed? || ev.Tally?) && s'.threads == s.threads && s'.entries.Keys == s.entries.Keys
  }

  lemma NoteUses(c: Config, s: State, s': State, i: nat, ev: Event)
    requires Owned(c, s) && i < |s.threads| && s.threads[i].call == NoCall && s.threads[i].pc.Discovering?
    requires !ev.Gossip? && Discover(c, s, i, ev) == Some(s')
    ensures if Repeats(s, s', ev) then Potential(c, s') == Potential(c, s) else Potential(c, s') < Potential(c, s)
  {
    hide Owned, Potential;
    LivePc(c, s, i);
    assert Plain(s, s');
    PlainPotential(c, s, s', i, s'.threads[i]);
    if ev.Tally? {
      assert s.threads[i := s.threads[i]] == s.threads;
    }
  }

  lemma GossipUses(c: Config, s: State, s': State, i: nat, ev: Event)
    requires i < |s.threads| && s.threads[i].call == NoCall && s.threads[i].pc.Discovering? && ev.Gossip?
    requires Discover(c, s, i, ev) == Some(s')
    ensures if Repeats(s, s', ev) then Potential(c, s') == Potential(c, s) else Potential(c, s') < Potential(c, s)
  {
    hide Potential;
    var k := ev.key;
    var (entries, outcome) := Upsert(s.entries, c.maxAddresses, k, ev.ts, ev.network, c.freshnessThreshold, ev.now);
    if outcome == BudgetRejected {
      assert s' == s;
    } else {
      assert entries == s.entries[k := entries[k]];
      var call := if outcome == Enqueue then Marked(k) else NoCall;
      assert s' == s.(entries := s.entries[k := entries[k]]).InCall(i, call) by {
        assert s.threads[i := s.threads[i]] == s.threads;
      }
      NewsUses(c, s, s', i, k, entries[k], call);
      assert s'.threads[i].call == call;
    }
  }

  lemma SeedUses(c: Config, s: State, s': State, i: nat, ev: Event)
    requires i < |s.threads| && s.threads[i].call == NoCall && ev.Seed? && MainStep(c, s, i, ev) == Some(s')
    ensures if Repeats(s, s', ev) then Potential(c, s') == Potential(c, s) else Potential(c, s') < Potential(c, s)
  {
    hide Potential;
    var k := ev.key;
    var (entries, newly) := Observe(s.entries, c.maxAddresses, k, ev.network, ev.now);
    if (c.filterSeeds && ev.network !in c.enabled) || (k !in s.entries && !newly) {
      assert s' == s;
    } else {
      assert entries == s.entries[k := entries[k]];
      var call := if newly then Marked(k) else NoCall;
      assert s' == s.(entries := s.entries[k := entries[k]]).InCall(i, call) by {
        assert s.threads[i := s.threads[i]] == s.threads;
      }
      NewsUses(c, s, s', i, k, entries[k], call);
      assert s'.threads[i].call == call;
    }
  }

  lemma WorkerUses(c: Config, s: State, s': State, i: nat, t: Transport, ev: Event)
    requires Owned(c, s) && i < |s.threads| && s.threads[i].call == NoCall && !s.threads[i].pc.Closing?
    requires WorkerStep(c, s, i, t, ev) == Some(s')
    ensures if Repeats(s, s', ev) then Potential(c, s') == Potential(c, s) else Potential(c, s') < Potential(c, s)
  {
    hide Owned, Potential, Process, Receive, Discover, Finish, Queues.TrySend;
    var pc := s.threads[i].pc;
    if pc.Discovering? {
      if ev.Gossip? {
        GossipUses(c, s, s', i, ev);
      } else {
        NoteUses(c, s, s', i, ev);
      }
    } else {
      assert !ev.Gossip? && !ev.Seed? && !ev.Tally? by { WorkerEvents(c, s, i, t, ev); }
      if pc.Idle? {
        ReceiveUses(c, s, i, t, ev == Late);
      } else if pc.Resending? {
        ResendUses(c, s, s', i, t, ev);
      } else if pc.Received? || pc.Refused? || pc.Finishing? || pc.Decrementing? {
        OwnUses(c, s, s', i, t, ev);
      } else {
        ProcessUses(c, s, i, ev);
      }
    }
  }

  lemma DiscoverEvents(c: Config, s: State, i: nat, ev: Event)
    requires i < |s.threads| && s.threads[i].pc.Discovering? && Discover(c, s, i, ev).Some?
    ensures ev.Gossip? || ev.Tally? || ev.GossipDone?
  {}

  lemma WorkerEvents(c: Config, s: State, i: nat, t: Transport, ev: Event)
    requires i < |s.threads| && !s.threads[i].pc.Discovering? && WorkerStep(c, s, i, t, ev).Some?
    ensures !ev.Gossip? && !ev.Seed? && !ev.Tally?
  {
    hide Receive, Finish, Queues.TrySend;
  }

  /** Every step of every thread uses up potential, except the mere repetition of an address and the counting of a
      message, which leave it as it is. */
  lemma StepUses(c: Config, s: State, s': State, i: nat, ev: Event)
    requires Inv(c, s) && i < |s.threads| && Step(c, s, i, ev) == Some(s')
    ensures if Repeats(s, s', ev) then Potential(c, s') == Potential(c, s) else Potential(c, s') < Potential(c, s)
  {
    assert Owned(c, s);
    hide Inv, Owned, Potential, EnqueueStep, CloseStep, MainStep, SignalStep, WorkerStep;
    var th := s.threads[i];
    if (th.call != NoCall || th.pc.Closing?) {
      assert !Repeats(s, s', ev) by { hide Step; TauOnly(c, s, i, ev); }
    }
    hide Repeats;
    if th.call != NoCall {
      EnqueueUses(c, s, i);
    } else if th.pc.Closing? {
      CloseUses(c, s, i);
    } else if th.role.Worker? {
      WorkerUses(c, s, s', i, th.role.t, ev);
    } else if ev.Seed? {
      SeedOnlyMain(c, s, i, ev);
      SeedUses(c, s, s', i, ev);
    } else {
      NotRepeated(c, s, s', i, ev);
      ControlUses(c, s, s', i, ev);
    }
  }

  lemma NotRepeated(c: Config, s: State, s': State, i: nat, ev: Event)
    requires i < |s.threads| && !ev.Seed?
    requires MainStep(c, s, i, ev) == Some(s') || SignalStep(s, i, ev) == Some(s')
    ensures !Repeats(s, s', ev)
  {
    if ev.Gossip? {
      SeedOnlyMain(c, s, i, ev);
    }
  }

  lemma TauOnly(c: Config, s: State, i: nat, ev: Event)
    requires i < |s.threads| && (s.threads[i].call != NoCall || s.threads[i].pc.Closing?)
    ensures Step(c, s, i, ev).Some? ==> ev == Tau
  {}

  lemma SeedOnlyMain(c: Config, s: State, i: nat, ev: Event)
    requires i < |s.threads| && (ev.Seed? || ev.Gossip?)
    ensures SignalStep(s, i, ev) == None
    ensures ev.Gossip? ==> MainStep(c, s, i, ev) == None
  {}

  /** How many steps of a schedule are not repetition. */
  ghost function EffectiveSteps(c: Config, start: State, schedule: seq<Choice>): nat {
    if schedule == [] then 0
    else
      var n := |schedule| - 1;
      EffectiveSteps(c, start, schedule[..n]) +
      (match (RunFrom(c, start, schedule[..n]), RunFrom(c, start, schedule))
       case (Some(s), Some(s')) => if Repeats(s, s', schedule[n].event) then 0 else 1
       case _ => 0)
  }

  lemma {:induction false} EffectiveUses(c: Config, start: State, s: State, schedule: seq<Choice>)
    requires ValidConfig(c) && Inv(c, start) && RunFrom(c, start, schedule) == Some(s)
    ensures EffectiveSteps(c, start, schedule) + Potential(c, s) <= Potential(c, start)
    decreases |schedule|
  {
    hide Inv, Potential, Step, Repeats;
    if schedule != [] {
      var n := |schedule| - 1;
      var before := RunFrom(c, start, schedule[..n]).value;
      EffectiveUses(c, start, before, schedule[..n]);
      RunInv(c, start, before, schedule[..n]);
      StepUses(c, before, s, schedule[n].thread, schedule[n].event);
    }
  }

  /** A whole run, whatever the interleaving and whatever peers send, has only so many steps that do more
      than repeat an address or count a message. */
  lemma RunLength(c: Config, s: State, schedule: seq<Choice>)
    requires ValidConfig(c) && RunFrom(c, Init(c), schedule) == Some(s)
    ensures EffectiveSteps(c, Init(c), schedule) <=
              16 * c.maxAddresses + 12 * c.maxAddresses * c.handshakeAttempts + |c.pools| + 13
  {
    hide Inv;
    InitInv(c);
    EffectiveUses(c, Init(c), s, schedule);
    RunInv(c, Init(c), s, schedule);
    PotentialIsNatural(c, s);
    InitPotential(c);
  }

  lemma InitPotential(c: Config)
    ensures Potential(c, Init(c)) == 16 * c.maxAddresses + 12 * c.maxAddresses * c.handshakeAttempts + |c.pools| + 13
  {
    var ths := Init(c).threads;
    assert StaleKeys(Init(c).entries) == {};
    assert ths[..2][..1][..0] == [];
    assert Total(ths[..2][..1], Weight) == Total(ths[..2][..1][..0], Weight) + Weight(ths[0]);
    assert Total(ths[..2], Weight) == Total(ths[..2][..1], Weight) + Weight(ths[1]);
    IdleWeight(ths, |ths|);
    assert ths[..|ths|] == ths;
    Associate(c.maxAddresses, c.handshakeAttempts);
  }

  lemma Associate(a: nat, b: nat)
    ensures 12 * (a * b) == 12 * a * b
  {}

  lemma {:induction false} IdleWeight(ths: seq<Thread>, n: nat)
    requires 2 <= n <= |ths| && forall i :: 2 <= i < |ths| ==> Weight(ths[i]) == 1
    ensures Total(ths[..n], Weight) == Total(ths[..2], Weight) + n - 2
  {
    if n > 2 {
      IdleWeight(ths, n - 1);
      assert ths[..n][..n - 1] == ths[..n - 1];
    }
  }
}
