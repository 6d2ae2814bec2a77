/** What the stored verdicts mean, how often gossip can queue an address, and why a run never sticks. */
module SchedulerVerdicts {
  import opened Base
  import opened Network
  import opened NodeStore
  import opened Scheduler
  import opened SchedulerInvariant
  import opened SchedulerCounting
  import opened SchedulerLifecycle
  import opened SchedulerTheorems
  import opened SchedulerTermination
  import opened SchedulerBounds
  import opened SchedulerVariant

  // ---- verdicts ------------------------------------------------------------------------------------------------

  /** The attempt history of every entry, and what each verdict says about it, at any moment of any run. */
  lemma Verdicts(c: Config, s: State, k: AddrKey)
    requires ValidConfig(c) && Occurs(c, s) && k in s.entries
    ensures var e := s.entries[k];
            |e.attempts| == e.stats.handshakeAttempts <= c.handshakeAttempts &&
            forall i :: 0 <= i < |e.attempts| ==> e.attempts[i].number == i + 1
    ensures var e := s.entries[k];
            e.state == Reachable ==>
              e.handshake.Some? && e.failure == None && e.attempts != [] && Last(e).outcome == AttemptComplete &&
              forall i :: 0 <= i < |e.attempts| - 1 ==> Lost(e.attempts[i])
    ensures var e := s.entries[k];
            e.state == Unreachable ==>
              e.attempts != [] && e.handshake == None && e.failure == Last(e).failure &&
              forall i :: 0 <= i < |e.attempts| ==>
                e.attempts[i].outcome == AttemptConnectFailed && Lost(e.attempts[i])
    ensures var e := s.entries[k];
            e.state == HandshakeFailed ==>
              e.attempts != [] && e.handshake == None && e.failure == Last(e).failure &&
              (exists i :: 0 <= i < |e.attempts| && e.attempts[i].outcome != AttemptConnectFailed) &&
              forall i :: 0 <= i < |e.attempts| ==> Lost(e.attempts[i])
    ensures var e := s.entries[k];
            e.state == Unreachable || e.state == HandshakeFailed ==> GivenUp(c, s.queues, e)
  {
    OccursInv(c, s);
    hide Occurs;
    var e := s.entries[k];
    assert EntryOk(c, s.queues, e);
    if e.state == Processing || e.state == Reachable {
      assert Numbered(e);
    } else {
      assert Between(c, e);
      assert e.state == Unreachable ==> !LinkedBefore(e, |e.attempts|);
    }
  }

  // ---- gossip --------------------------------------------------------------------------------------------------

  lemma PutKnown(s: State, s': State, k: AddrKey)
    requires Plain(s, s')
    ensures KnownTo(s, k) ==> KnownTo(s', k)
  {
    assert k in StaleKeys(s'.entries) <==> k in StaleKeys(s.entries);
    assert k in s'.entries.Keys <==> k in s.entries.Keys;
  }

  lemma NewsKnown(c: Config, s: State, s': State, i: nat, ev: Event, k: AddrKey)
    requires i < |s.threads| && s.threads[i].call == NoCall
    requires (s.threads[i].pc.Discovering? && ev.Gossip? && Discover(c, s, i, ev) == Some(s')) ||
             (ev.Seed? && MainStep(c, s, i, ev) == Some(s'))
    ensures KnownTo(s, k) ==> KnownTo(s', k)
    ensures QueuesFromFrontier(c, s, Choice(i, ev), k) ==> !KnownTo(s, k) && KnownTo(s', k)
  {}

  lemma OtherKnown(c: Config, s: State, s': State, i: nat, ev: Event, k: AddrKey)
    requires Owned(c, s) && i < |s.threads| && Step(c, s, i, ev) == Some(s') && !ev.Gossip? && !ev.Seed?
    ensures KnownTo(s, k) ==> KnownTo(s', k)
  {
    hide Owned, EnqueueStep, WorkerStep, Plain, KnownTo;
    var th := s.threads[i];
    if th.call != NoCall {
      PlainEnqueue(c, s, i);
    } else if !th.pc.Closing? && th.role.Worker? {
      PlainWorker(c, s, s', i, th.role.t, ev);
    } else {
      assert Plain(s, s') by { SameEntries(c, s, s', i, ev); SamePlain(s, s'); }
    }
    PutKnown(s, s', k);
  }

  lemma SamePlain(s: State, s': State)
    requires s'.entries == s.entries
    ensures Plain(s, s')
  {}

  lemma SameEntries(c: Config, s: State, s': State, i: nat, ev: Event)
    requires i < |s.threads| && Step(c, s, i, ev) == Some(s') && !ev.Seed? && s.threads[i].call == NoCall
    requires s.threads[i].pc.Closing? || !s.threads[i].role.Worker?
    ensures s'.entries == s.entries
  {
    hide WorkerStep, Observe;
  }

  /** Known addresses stay known, and an address queued from the frontier was not known before. */
  lemma StepKnown(c: Config, s: State, s': State, i: nat, ev: Event, k: AddrKey)
    requires Inv(c, s) && i < |s.threads| && Step(c, s, i, ev) == Some(s')
    ensures KnownTo(s, k) ==> KnownTo(s', k)
    ensures QueuesFromFrontier(c, s, Choice(i, ev), k) ==> !KnownTo(s, k) && KnownTo(s', k)
  {
    assert Owned(c, s);
    assert RoleOk(s.threads[i]) by { ThreadRole(c, s, i); }
    hide Inv, Owned;
    if ev.Gossip? || ev.Seed? {
      NewsShape(c, s, s', i, ev);
      NewsKnown(c, s, s', i, ev, k);
    } else {
      OtherKnown(c, s, s', i, ev, k);
    }
  }

  lemma NewsShape(c: Config, s: State, s': State, i: nat, ev: Event)
    requires i < |s.threads| && Step(c, s, i, ev) == Some(s') && (ev.Gossip? || ev.Seed?)
    ensures s.threads[i].call == NoCall
    ensures (s.threads[i].pc.Discovering? && ev.Gossip? && Discover(c, s, i, ev) == Some(s')) ||
            (ev.Seed? && MainStep(c, s, i, ev) == Some(s'))
  {
    hide EnqueueStep, CloseStep, MainStep, SignalStep, WorkerStep, Discover;
    var th := s.threads[i];
    if th.call != NoCall || th.pc.Closing? {
      TauOnly(c, s, i, ev);
    }
    SeedOnlyMain(c, s, i, ev);
    if th.role.Worker? {
      WorkerNews(c, s, i, th.role.t, ev);
    }
  }

  lemma WorkerNews(c: Config, s: State, i: nat, t: Transport, ev: Event)
    requires i < |s.threads| && WorkerStep(c, s, i, t, ev).Some? && (ev.Gossip? || ev.Seed?)
    ensures s.threads[i].pc.Discovering? && ev.Gossip? && WorkerStep(c, s, i, t, ev) == Discover(c, s, i, ev)
  {
    if !s.threads[i].pc.Discovering? {
      WorkerEvents(c, s, i, t, ev);
    } else {
      DiscoverEvents(c, s, i, ev);
    }
  }

  /** Whatever peers send, an address enters a queue from the frontier at most once, and not at all if it
      was known to begin with. */
  lemma {:induction false} FrontierOnce(c: Config, s: State, s': State, schedule: seq<Choice>, k: AddrKey)
    requires ValidConfig(c) && Occurs(c, s) && RunFrom(c, s, schedule) == Some(s')
    ensures FrontierEntries(c, s, schedule, k) <= if KnownTo(s, k) then 0 else 1
    ensures FrontierEntries(c, s, schedule, k) == 1 || KnownTo(s, k) ==> KnownTo(s', k)
    decreases |schedule|
  {
    OccursInv(c, s);
    hide Occurs, Inv, Step, KnownTo, QueuesFromFrontier;
    if schedule != [] {
      var n := |schedule| - 1;
      var before := RunFrom(c, s, schedule[..n]).value;
      FrontierOnce(c, s, before, schedule[..n], k);
      RunInv(c, s, before, schedule[..n]);
      StepKnown(c, before, s', schedule[n].thread, schedule[n].event, k);
    }
  }

  // ---- progress --------------------------------------------------------------------------------------------------

  /** No thread can move, whatever the environment does short of Ctrl+C. */
  ghost predicate Stuck(c: Config, s: State) {
    forall i, ev :: 0 <= i < |s.threads| && ev != Interrupt ==> Step(c, s, i, ev) == None
  }

  /** An event that lets a worker with an address move. */
  function Move(pc: Pc): Event {
    match pc
    case Connecting(_) => Link(0)
    case SendingVersion(_) => VersionWritten
    case AwaitingPeer(_) => PeerSilent
    case Discovering(_) => GossipDone(NotRequested)
    case _ => Tau
  }

  predicate Busy(th: Thread) { KeyOf(th.pc).Some? || th.call != NoCall || th.pc.Closing? }

  function MoveOf(th: Thread): Event {
    if th.call != NoCall || th.pc.Closing? then Tau else Move(th.pc)
  }

  lemma BusyWorker(c: Config, s: State, i: nat, t: Transport)
    requires i < |s.threads| && KeyOf(s.threads[i].pc).Some? && s.threads[i].pc.key in s.entries
    ensures WorkerStep(c, s, i, t, Move(s.threads[i].pc)).Some?
  {
    hide Finish, Queues.TrySend;
  }

  /** A busy thread can always move. */
  lemma BusyMoves(c: Config, s: State, i: nat)
    requires Inv(c, s) && s.Running() && i < |s.threads| && Busy(s.threads[i])
    ensures Step(c, s, i, MoveOf(s.threads[i])).Some?
  {
    hide Inv, WorkerStep, EnqueueStep, CloseStep, MainStep, SignalStep;
    Facts(c, s);
    var th := s.threads[i];
    if th.call == NoCall && !th.pc.Closing? {
      BusyWorker(c, s, i, th.role.t);
    }
  }

  /** Nor does an idle worker wait in vain when nobody holds an address: somebody has a queue to close
      or a key to receive. */
  lemma IdleMoves(c: Config, s: State, j: nat, t: Transport) returns (i: nat)
    requires Inv(c, s) && s.Running() && j < |s.threads| && s.threads[j].role == Worker(t)
    requires s.threads[j].pc == Idle && s.threads[j].call == NoCall && s.outstanding == s.queues.Size()
    requires forall i :: 0 <= i < |s.threads| ==> KeyOf(s.threads[i].pc) == None && s.threads[i].call == NoCall
    requires forall t :: s.queues.At(t).items != [] ==> t in c.pools
    ensures i < |s.threads| && Step(c, s, i, Tau).Some?
  {
    hide Inv;
    Facts(c, s);
    NoneQueued(s);
    if s.shutdown || !s.queues.At(t).open || s.queues.At(t).items != [] {
      i := j;
    } else if s.outstanding == 0 {
      i :| 0 <= i < |s.threads| && ClosingOn(s.threads[i], t);
    } else {
      var u :| s.queues.At(u).items != [];
      var p: nat :| p < |c.pools| && c.pools[p] == u;
      i := 2 + p;
      RoleAt(c, s, i);
    }
  }

  /** A run in which no thread can move any more is over: every worker has returned, and without Ctrl+C
      nothing is left. The one hypothesis is that queued addresses have workers. */
  lemma NeverStuckEarly(c: Config, s: State)
    requires ValidConfig(c) && Occurs(c, s) && s.Running() && Stuck(c, s)
    requires forall t :: s.queues.At(t).items != [] ==> t in c.pools
    ensures |s.threads| == 2 + |c.pools| && AllWorkersLeft(c, s)
    ensures !s.shutdown ==> s.outstanding == 0 && ActiveKeys(s) == {}
  {
    hide Occurs, Inv, Counter, Step;
    OccursInv(c, s);
    Facts(c, s);
    forall j | 0 <= j < |s.threads| ensures !Busy(s.threads[j]) {
      if Busy(s.threads[j]) {
        BusyMoves(c, s, j);
      }
    }
    Unfold(s);
    AllLoads(s);
    forall j | 2 <= j < |s.threads| ensures s.threads[j].pc == Exited {
      RoleAt(c, s, j);
      if s.threads[j].pc == Idle {
        var i := IdleMoves(c, s, j, c.pools[j - 2]);
      }
    }
    if !s.shutdown {
      EndOfRun(c, s);
    }
  }

  lemma AllLoads(s: State)
    requires forall j :: 0 <= j < |s.threads| ==> KeyOf(s.threads[j].pc) == None && s.threads[j].call == NoCall
    ensures Tally.Total(s.threads, Load) == 0
  {
    Tally.TotalZero(s.threads, Load);
  }
}
