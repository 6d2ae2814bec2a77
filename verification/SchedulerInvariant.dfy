/** The invariant of the scheduler: every live address has exactly one owner. */
module SchedulerInvariant {
  import opened Base
  import opened Network
  import opened NodeStore
  import opened Scheduler
  import opened Tally

  // ---- ownership tokens -----------------------------------------------------------------

  function PcHeld(pc: Pc): multiset<AddrKey> {
    match KeyOf(pc) case Some(k) => multiset{k} case None => multiset{}
  }

  function CallHeld(call: Call): multiset<AddrKey> {
    if call == NoCall then multiset{} else multiset{call.child}
  }

  /** The addresses a thread is responsible for. */
  function Held(th: Thread): multiset<AddrKey> { PcHeld(th.pc) + CallHeld(th.call) }

  /** Held in a terminal state, and still counted. */
  function Settling(th: Thread): multiset<AddrKey> {
    (if th.pc.Decrementing? then multiset{th.pc.key} else multiset{}) +
    (if th.call.Discarded? then multiset{th.call.child} else multiset{})
  }

  /** A node slot is reserved, and the attempt is not begun yet. */
  function SlotOnly(th: Thread): multiset<AddrKey> {
    if th.pc.Reserved? || th.pc.Started? then multiset{th.pc.key} else multiset{}
  }

  ghost function InQueues(qs: Queues): multiset<AddrKey> {
    multiset(qs.ip.items) + multiset(qs.tor.items) + multiset(qs.i2p.items)
  }

  ghost function Tokens(s: State): multiset<AddrKey> {
    InQueues(s.queues) + Gather(s.threads, Held)
  }

  // ---- what an entry may look like ------------------------------------------------------

  ghost predicate Numbered(e: NodeEntry) {
    |e.attempts| == e.stats.handshakeAttempts &&
    forall i :: 0 <= i < |e.attempts| ==> e.attempts[i].number == i + 1
  }

  /** An attempt that ended in failure, with a reason fitting how far it got. */
  predicate Lost(a: Attempt) {
    a.failure.Some? &&
    match a.outcome
    case AttemptConnectFailed => IsConnectKind(a.failure.value)
    case AttemptTimedOut => a.failure.value == FailKind.HandshakeTimeout
    case AttemptFailed => a.failure.value == VersionSendFailed || IsHandshakeKind(a.failure.value)
    case _ => false
  }

  ghost predicate LostUpTo(e: NodeEntry, n: nat) {
    n <= |e.attempts| && forall i :: 0 <= i < n ==> Lost(e.attempts[i])
  }

  /** One of the first `n` attempts got past connecting. */
  ghost predicate LinkedBefore(e: NodeEntry, n: nat) {
    n <= |e.attempts| && exists i :: 0 <= i < n && e.attempts[i].outcome != AttemptConnectFailed
  }

  function Last(e: NodeEntry): Attempt
    requires e.attempts != []
  { e.attempts[|e.attempts| - 1] }

  /** No attempt is running: all of them were lost, and the connect time records whether one linked. */
  ghost predicate Between(c: Config, e: NodeEntry) {
    Numbered(e) && LostUpTo(e, |e.attempts|) && |e.attempts| <= c.handshakeAttempts && e.handshake == None &&
    (e.stats.timeConnectMs.Some? <==> LinkedBefore(e, |e.attempts|))
  }

  /** The last attempt is running and has got as far as `outcome`. */
  ghost predicate During(c: Config, e: NodeEntry, outcome: AttemptOutcome) {
    Numbered(e) && e.attempts != [] && LostUpTo(e, |e.attempts| - 1) && |e.attempts| <= c.handshakeAttempts &&
    Last(e).outcome == outcome && Last(e).failure == None
  }

  /** Why no further attempt was made. */
  predicate GivenUp(c: Config, qs: Queues, e: NodeEntry)
    requires e.attempts != []
  {
    |e.attempts| == c.handshakeAttempts || !qs.At(e.network.Carrier()).open ||
    (Last(e).outcome == AttemptTimedOut && !c.retryOnTimeout)
  }

  ghost predicate EntryOk(c: Config, qs: Queues, e: NodeEntry) {
    match e.state
    case Queued => Between(c, e) && |e.attempts| < c.handshakeAttempts
    case Processing => Numbered(e) && |e.attempts| <= c.handshakeAttempts
    case Reachable =>
      During(c, e, AttemptComplete) && e.handshake.Some? && e.stats.timeConnectMs.Some? && e.failure == None
    case Unreachable =>
      Between(c, e) && e.attempts != [] && e.stats.timeConnectMs == None && e.failure == Last(e).failure &&
      GivenUp(c, qs, e)
    case HandshakeFailed =>
      Between(c, e) && e.attempts != [] && e.stats.timeConnectMs.Some? && e.failure == Last(e).failure &&
      GivenUp(c, qs, e)
    case StaleDiscarded => Between(c, e) && e.attempts == []
    case BudgetDiscarded => Between(c, e)
  }

  // ---- what a thread knows about the entries it holds -----------------------------------

  predicate RoleOk(th: Thread) {
    (th.call != NoCall ==> th.pc.Seeding? || th.pc.Discovering?) &&
    match th.role
    case MainThread => th.pc.Seeding? || th.pc.Closing? || th.pc.Spawned?
    case SignalThread => th.pc.AwaitSignal? || th.pc.Interrupted? || th.pc.Closing? || th.pc.SignalDone?
    case Worker(_) => th.pc.Idle? || th.pc.Exited? || th.pc.Closing? || KeyOf(th.pc).Some?
  }

  ghost predicate PcOk(c: Config, qs: Queues, e: NodeEntry, pc: Pc)
    requires KeyOf(pc).Some?
  {
    match pc
    case Received(_) | Refused(_) | Reserved(_) =>
      e.state == Queued && Between(c, e) && |e.attempts| < c.handshakeAttempts
    case Started(_) => e.state == Processing && Between(c, e) && |e.attempts| < c.handshakeAttempts
    case Connecting(_) =>
      e.state == Processing && During(c, e, AttemptStarted) && e.handshake == None &&
      (e.stats.timeConnectMs.Some? <==> LinkedBefore(e, |e.attempts| - 1))
    case Connected(_) =>
      e.state == Processing && During(c, e, AttemptStarted) && e.handshake == None && e.stats.timeConnectMs.Some?
    case SendingVersion(_) =>
      e.state == Processing && During(c, e, AttemptConnected) && e.handshake == None && e.stats.timeConnectMs.Some?
    case AwaitingPeer(_) =>
      e.state == Processing && During(c, e, AttemptVersionSent) && e.handshake == None && e.stats.timeConnectMs.Some?
    case Discovering(_) | Collected(_) =>
      e.state == Processing && During(c, e, AttemptVersionSent) && e.handshake.Some? && e.stats.timeConnectMs.Some?
    case ConnectLost(_, kind) =>
      e.state == Processing && Between(c, e) && e.attempts != [] &&
      Last(e).outcome == AttemptConnectFailed && Last(e).failure == Some(kind)
    case HandshakeLost(_, timedOut, kind) =>
      e.state == Processing && Between(c, e) && e.attempts != [] &&
      Last(e).outcome == (if timedOut then AttemptTimedOut else AttemptFailed) && Last(e).failure == Some(kind)
    case Requeueing(_, terminal, kind) => e.state == Processing && Retriable(c, e, terminal, kind)
    case Resending(_, terminal, kind) => e.state == Queued && Retriable(c, e, terminal, kind)
    case Finishing(_, terminal, reason) =>
      e.Active() && terminal in {Reachable, HandshakeFailed, Unreachable, BudgetDiscarded} &&
      EntryOk(c, qs, e.(state := terminal, failure := reason))
    case Decrementing(_, refused) =>
      !e.Active() && e.state != StaleDiscarded && (refused <==> e.state == BudgetDiscarded)
  }

  ghost predicate Retriable(c: Config, e: NodeEntry, terminal: NodeState, kind: FailKind) {
    Between(c, e) && 0 < |e.attempts| < c.handshakeAttempts && Last(e).failure == Some(kind) &&
    terminal == (if e.stats.timeConnectMs.Some? then HandshakeFailed else Unreachable)
  }

  ghost predicate ThreadOk(c: Config, qs: Queues, entries: Entries, th: Thread) {
    RoleOk(th) &&
    (KeyOf(th.pc).Some? ==>
       th.pc.key in entries && th.role.Worker? && entries[th.pc.key].network.Carrier() == th.role.t &&
       PcOk(c, qs, entries[th.pc.key], th.pc)) &&
    (th.call != NoCall ==>
       th.call.child in entries &&
       entries[th.call.child].state == if th.call.Discarded? then BudgetDiscarded else Queued)
  }

  ghost predicate QueuedAt(entries: Entries, k: AddrKey, t: Transport) {
    k in entries && entries[k].state == Queued && entries[k].network.Carrier() == t
  }

  // ---- the invariant ----------------------------------------------------------------------

  ghost predicate Unique(s: State) { forall k :: Tokens(s)[k] <= 1 }

  ghost predicate QueuesOk(s: State) {
    forall t, k :: k in s.queues.At(t).items ==> QueuedAt(s.entries, k, t)
  }

  ghost predicate ThreadsOk(c: Config, s: State) {
    forall i :: 0 <= i < |s.threads| ==> ThreadOk(c, s.queues, s.entries, s.threads[i])
  }

  ghost predicate ActiveHeld(s: State) {
    forall k :: k in s.entries && s.entries[k].Active() ==> k in Tokens(s)
  }

  ghost predicate EntriesOk(c: Config, s: State) {
    forall k :: k in s.entries ==> EntryOk(c, s.queues, s.entries[k])
  }

  ghost predicate Owned(c: Config, s: State) {
    Unique(s) && QueuesOk(s) && ThreadsOk(c, s) && ActiveHeld(s) && EntriesOk(c, s)
  }

  // ---- framing ------------------------------------------------------------------------------

  /** Equal except for the freshest timestamp: all that gossip changes in a live entry. */
  predicate Similar(e: NodeEntry, e': NodeEntry) { e' == e.(freshestTs := e'.freshestTs) }

  predicate NoReopen(qs: Queues, qs': Queues) {
    (qs'.ip.open ==> qs.ip.open) && (qs'.tor.open ==> qs.tor.open) && (qs'.i2p.open ==> qs.i2p.open)
  }

  lemma EntryFrame(c: Config, qs: Queues, qs': Queues, e: NodeEntry, e': NodeEntry)
    requires EntryOk(c, qs, e) && Similar(e, e') && NoReopen(qs, qs')
    ensures EntryOk(c, qs', e')
  {}

  lemma ThreadFrame(c: Config, qs: Queues, qs': Queues, entries: Entries, entries': Entries, th: Thread)
    requires ThreadOk(c, qs, entries, th) && NoReopen(qs, qs')
    requires forall k :: k in Held(th) ==> k in entries' && Similar(entries[k], entries'[k])
    ensures ThreadOk(c, qs', entries', th)
  {
    if KeyOf(th.pc).Some? {
      var k := th.pc.key;
      assert k in Held(th);
      if th.pc.Finishing? {
        var e := entries[k].(state := th.pc.terminal, failure := th.pc.reason);
        EntryFrame(c, qs, qs', e, entries'[k].(state := th.pc.terminal, failure := th.pc.reason));
      }
    }
    if th.call != NoCall {
      assert th.call.child in Held(th);
    }
  }

  /** Nothing but the entry of `k` differs. */
  ghost predicate OnlyAt(entries: Entries, entries': Entries, k: AddrKey) {
    (forall x :: x != k ==> (x in entries <==> x in entries')) &&
    (forall x :: x != k && x in entries ==> entries'[x] == entries[x])
  }

  /** Either thread `i` owns `k`, or nobody does, or `k` is changed only in its timestamp. */
  ghost predicate MayTouch(s: State, s': State, i: nat, k: AddrKey)
    requires i < |s.threads|
  {
    k in Held(s.threads[i]) || k !in Tokens(s) ||
    (k in s.entries && k in s'.entries && Similar(s.entries[k], s'.entries[k]))
  }

  lemma HeldElsewhere(s: State, i: nat, j: nat, k: AddrKey)
    requires Unique(s) && i < |s.threads| && j < |s.threads| && i != j && k in Held(s.threads[j])
    ensures k in Tokens(s) && k !in Held(s.threads[i]) && k !in InQueues(s.queues)
  {
    GatherTwo(s.threads, i, j, Held);
    assert Tokens(s)[k] <= 1;
  }

  lemma HeldKnown(c: Config, qs: Queues, entries: Entries, th: Thread)
    requires ThreadOk(c, qs, entries, th)
    ensures forall k :: k in Held(th) ==> k in entries
  {}

  lemma OtherThread(c: Config, s: State, s': State, i: nat, j: nat, k: AddrKey)
    requires Unique(s) && i < |s.threads| && j < |s.threads| && i != j
    requires NoReopen(s.queues, s'.queues) && OnlyAt(s.entries, s'.entries, k) && MayTouch(s, s', i, k)
    requires ThreadOk(c, s.queues, s.entries, s.threads[j])
    ensures ThreadOk(c, s'.queues, s'.entries, s.threads[j])
  {
    hide ThreadOk, Tokens;
    if k in Held(s.threads[j]) {
      HeldElsewhere(s, i, j, k);
    }
    HeldKnown(c, s.queues, s.entries, s.threads[j]);
    ThreadFrame(c, s.queues, s'.queues, s.entries, s'.entries, s.threads[j]);
  }

  lemma OtherEntries(c: Config, s: State, s': State, k: AddrKey)
    requires EntriesOk(c, s) && NoReopen(s.queues, s'.queues) && OnlyAt(s.entries, s'.entries, k)
    requires k in s'.entries ==> EntryOk(c, s'.queues, s'.entries[k])
    ensures EntriesOk(c, s')
  {
    forall x | x in s'.entries && x != k ensures EntryOk(c, s'.queues, s'.entries[x]) {
      EntryFrame(c, s.queues, s'.queues, s.entries[x], s'.entries[x]);
    }
  }

  /** What thread `i` holds sits in no queue. */
  lemma QueueApart(s: State, i: nat, k: AddrKey)
    requires Unique(s) && i < |s.threads| && k in Held(s.threads[i])
    ensures k in Tokens(s) && forall t :: k !in s.queues.At(t).items
  {
    GatherUpdate(s.threads, i, s.threads[i], Held);
    hide Held, Gather;
    assert Gather(s.threads, Held)[k] >= 1 && Tokens(s)[k] <= 1;
    NotQueued(s.queues, k);
  }

  lemma NotQueued(qs: Queues, k: AddrKey)
    requires InQueues(qs)[k] == 0
    ensures forall t :: k !in qs.At(t).items
  {
    assert multiset(qs.ip.items)[k] == 0 && multiset(qs.tor.items)[k] == 0 && multiset(qs.i2p.items)[k] == 0;
  }

  lemma TokensSame(s: State, s': State, i: nat, th': Thread)
    requires i < |s.threads| && s'.threads == s.threads[i := th'] && Held(th') == Held(s.threads[i])
    requires forall t :: s'.queues.At(t).items == s.queues.At(t).items
    ensures Tokens(s') == Tokens(s)
  {
    hide Held, Gather;
    GatherMove(s.threads, i, th', Held, multiset{}, multiset{});
    assert Gather(s'.threads, Held) == Gather(s'.threads, Held) + multiset{};
    assert Gather(s.threads, Held) == Gather(s.threads, Held) + multiset{};
    assert s'.queues.At(OverIp).items == s.queues.At(OverIp).items;
    assert s'.queues.At(OverTor).items == s.queues.At(OverTor).items;
    assert s'.queues.At(OverI2p).items == s.queues.At(OverI2p).items;
  }

  lemma TokensSent(s: State, s': State, i: nat, th': Thread, k: AddrKey, t: Transport)
    requires i < |s.threads| && s'.threads == s.threads[i := th'] && Held(s.threads[i]) == Held(th') + multiset{k}
    requires s'.queues == s.queues.With(t, s.queues.At(t).(items := s.queues.At(t).items + [k]))
    ensures Tokens(s') == Tokens(s)
  {
    hide Held, Gather;
    GatherMove(s.threads, i, th', Held, multiset{}, multiset{k});
    InQueuesSent(s.queues, t, k);
    Transfer(InQueues(s.queues), InQueues(s'.queues), Gather(s.threads, Held), Gather(s'.threads, Held), k);
  }

  lemma InQueuesSent(qs: Queues, t: Transport, k: AddrKey)
    ensures InQueues(qs.With(t, qs.At(t).(items := qs.At(t).items + [k]))) == InQueues(qs) + multiset{k}
  {}

  lemma Transfer(q: multiset<AddrKey>, q': multiset<AddrKey>, h: multiset<AddrKey>, h': multiset<AddrKey>, k: AddrKey)
    requires q' == q + multiset{k} && h == h' + multiset{k}
    ensures q' + h' == q + h
  {}

  lemma TokensReceived(s: State, s': State, i: nat, th': Thread, t: Transport)
    requires i < |s.threads| && s'.threads == s.threads[i := th'] && s.queues.At(t).items != []
    requires s'.queues == s.queues.With(t, s.queues.At(t).(items := s.queues.At(t).items[1..]))
    requires Held(th') == Held(s.threads[i]) + multiset{s.queues.At(t).items[0]}
    ensures Tokens(s') == Tokens(s)
  {
    hide Held, Gather;
    var q := s.queues.At(t).items;
    GatherMove(s.threads, i, th', Held, multiset{q[0]}, multiset{});
    InQueuesReceived(s.queues, t);
    Transfer(InQueues(s'.queues), InQueues(s.queues), Gather(s'.threads, Held), Gather(s.threads, Held), q[0]);
  }

  lemma InQueuesReceived(qs: Queues, t: Transport)
    requires qs.At(t).items != []
    ensures InQueues(qs) == InQueues(qs.With(t, qs.At(t).(items := qs.At(t).items[1..]))) + multiset{qs.At(t).items[0]}
  {
    var q := qs.At(t).items;
    assert q == [q[0]] + q[1..];
  }

  lemma TokensMoved(s: State, s': State, i: nat, th': Thread)
    requires i < |s.threads| && s'.threads == s.threads[i := th'] && s'.queues == s.queues
    ensures Tokens(s') == Tokens(s) - Held(s.threads[i]) + Held(th') && Held(s.threads[i]) <= Tokens(s)
  {
    GatherUpdate(s.threads, i, th', Held);
  }

  /** A step of thread `i` that touches no entry but `k` keeps ownership, if `k` itself is left in order. */
  lemma OwnedStep(c: Config, s: State, s': State, i: nat, th': Thread, k: AddrKey)
    requires Owned(c, s) && i < |s.threads| && s'.threads == s.threads[i := th']
    requires NoReopen(s.queues, s'.queues) && OnlyAt(s.entries, s'.entries, k) && MayTouch(s, s', i, k)
    requires k in s'.entries ==> EntryOk(c, s'.queues, s'.entries[k])
    requires ThreadOk(c, s'.queues, s'.entries, th')
    requires forall t, x :: x in s'.queues.At(t).items && x != k ==> x in s.queues.At(t).items
    requires forall t :: k in s'.queues.At(t).items ==> QueuedAt(s'.entries, k, t)
    requires Unique(s')
    requires forall x :: x != k && x in Tokens(s) ==> x in Tokens(s')
    requires k in s'.entries && s'.entries[k].Active() ==> k in Tokens(s')
    ensures Owned(c, s')
  {
    hide ThreadOk, EntryOk, Tokens;
    assert ThreadsOk(c, s') by {
      forall j | 0 <= j < |s'.threads| ensures ThreadOk(c, s'.queues, s'.entries, s'.threads[j]) {
        if j != i {
          OtherThread(c, s, s', i, j, k);
        }
      }
    }
    OtherEntries(c, s, s', k);
    assert QueuesOk(s') by {
      forall t, x | x in s'.queues.At(t).items ensures QueuedAt(s'.entries, x, t) {
        assert x in s.queues.At(t).items ==> QueuedAt(s.entries, x, t);
      }
    }
  }
}
