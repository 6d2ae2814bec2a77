/** The crawl scheduler (src/crawler.rs) as a transition system of small steps.

    Every atomic action of the source is a step of its own: marking an entry,
    counting it, sending it, receiving it, reserving a slot, each `with_entry`,
    the decrement, and the close of each single queue. Only the look at the
    shutdown flag is part of the receive after it; a `Late` receive is one whose
    look came before the flag was raised. Any thread may take the next step, and
    everything a peer or the network decides is an event. */
module Scheduler {
  import opened Base
  import opened Network
  import opened NodeStore

  datatype Config = Config(
    maxAddresses: nat,
    handshakeAttempts: nat,
    maxNodes: Option<nat>,
    freshnessThreshold: int,
    retryOnTimeout: bool,
    probeMode: bool,
    filterSeeds: bool,              // the crawler drops seeds of disabled networks, the probe does not
    enabled: set<NetworkType>,
    pools: seq<Transport>)          // one element per spawned worker

  predicate ValidConfig(c: Config) {
    0 < c.maxAddresses < U64 && 0 < c.handshakeAttempts
  }

  /** Settings validation: an enabled network has workers for its transport. */
  ghost predicate PooledNetworks(c: Config) {
    Unknown !in c.enabled && forall net :: net in c.enabled ==> net.Carrier() in c.pools
  }

  datatype Queue = Queue(items: seq<AddrKey>, open: bool)

  datatype Queues = Queues(ip: Queue, tor: Queue, i2p: Queue) {
    function At(t: Transport): Queue {
      match t case OverIp => ip case OverTor => tor case OverI2p => i2p
    }

    function With(t: Transport, q: Queue): Queues {
      match t
      case OverIp => this.(ip := q)
      case OverTor => this.(tor := q)
      case OverI2p => this.(i2p := q)
    }

    function Close(t: Transport): Queues { With(t, At(t).(open := false)) }

    /** `try_send`: None when the queue is closed or full. */
    function TrySend(t: Transport, key: AddrKey, capacity: nat): Option<Queues> {
      var q := At(t);
      if q.open && |q.items| < capacity then Some(With(t, q.(items := q.items + [key]))) else None
    }

    function Size(): nat { |ip.items| + |tor.items| + |i2p.items| }
  }

  datatype Role = MainThread | SignalThread | Worker(t: Transport)

  /** Where a thread stands in its own code; `key` is the address it is working on. */
  datatype Pc =
    | Seeding | Spawned
    | AwaitSignal | Interrupted | SignalDone
    | Idle | Exited
    | Received(key: AddrKey)
    | Refused(key: AddrKey)
    | Reserved(key: AddrKey)
    | Started(key: AddrKey)
    | Connecting(key: AddrKey)
    | ConnectLost(key: AddrKey, kind: FailKind)
    | Connected(key: AddrKey)
    | SendingVersion(key: AddrKey)
    | AwaitingPeer(key: AddrKey)
    | HandshakeLost(key: AddrKey, timedOut: bool, kind: FailKind)
    | Discovering(key: AddrKey)
    | Collected(key: AddrKey)
    | Requeueing(key: AddrKey, terminal: NodeState, kind: FailKind)
    | Resending(key: AddrKey, terminal: NodeState, kind: FailKind)
    | Finishing(key: AddrKey, terminal: NodeState, reason: Option<FailKind>)
    | Decrementing(key: AddrKey, refused: bool)
    | Closing(todo: seq<Transport>)

  /** The address a worker is working on. */
  function KeyOf(pc: Pc): Option<AddrKey> {
    if pc.Received? || pc.Refused? || pc.Reserved? || pc.Started? || pc.Connecting? || pc.ConnectLost? ||
       pc.Connected? || pc.SendingVersion? || pc.AwaitingPeer? || pc.HandshakeLost? || pc.Discovering? ||
       pc.Collected? || pc.Requeueing? || pc.Resending? || pc.Finishing? || pc.Decrementing?
    then Some(pc.key) else None
  }

  /** The frame of a running `enqueue` call, if the thread is inside one. */
  datatype Call =
    | NoCall
    | Marked(child: AddrKey)      // Queued in the store, not yet counted
    | Counted(child: AddrKey)     // counted, not yet sent
    | Rejected(child: AddrKey)    // the send failed
    | Discarded(child: AddrKey)   // marked BudgetDiscarded, still counted

  datatype Thread = Thread(role: Role, pc: Pc, call: Call)

  datatype State = State(
    entries: Entries,
    outstanding: nat,
    queues: Queues,
    numProcessed: nat,
    nodeLimitReached: bool,
    shutdown: bool,
    threads: seq<Thread>)
  {
    predicate Running() { |threads| > 0 && threads[0].pc == Spawned }

    function Go(i: nat, pc: Pc): State
      requires i < |threads|
    { this.(threads := threads[i := threads[i].(pc := pc)]) }

    function InCall(i: nat, call: Call): State
      requires i < |threads|
    { this.(threads := threads[i := threads[i].(call := call)]) }

    /** `with_entry`: nothing happens when the key is absent. */
    function Put(key: AddrKey, e: NodeEntry): State {
      if key in entries then this.(entries := entries[key := e]) else this
    }
  }

  /** What the environment decides at one step. */
  datatype Event =
    | Tau
    | Late
    | Seed(key: AddrKey, network: NetworkType, now: int)
    | SeedsDone
    | Interrupt
    | Link(ms: nat)
    | NoLink(kind: FailKind)
    | VersionWritten
    | PeerVersion(data: HandshakeData)
    | PeerSilent
    | PeerFailed(kind: FailKind)
    | Gossip(key: AddrKey, ts: int, network: NetworkType, now: int)
    | Tally(counted: nat, declared: nat, bad: nat)
    | GossipDone(outcome: CollectionOutcome)

  function Init(c: Config): State {
    var empty := Queue([], true);
    State(map[], 0, Queues(empty, empty, empty), 0, false, false,
          [Thread(MainThread, Seeding, NoCall), Thread(SignalThread, AwaitSignal, NoCall)] +
          seq(|c.pools|, (i: nat) requires i < |c.pools| => Thread(Worker(c.pools[i]), Idle, NoCall)))
  }

  // ---- the entry edits of `process` -------------------------------------------------

  function LastAttempt(e: NodeEntry, outcome: AttemptOutcome, failure: Option<FailKind>): NodeEntry {
    if e.attempts == [] then e
    else
      var a := e.attempts[|e.attempts| - 1];
      e.(attempts := e.attempts[|e.attempts| - 1 :=
           a.(outcome := outcome, failure := if failure.Some? then failure else a.failure)])
  }

  function BeginAttempt(e: NodeEntry): NodeEntry {
    var n := e.stats.handshakeAttempts + 1;
    e.(stats := e.stats.(handshakeAttempts := n), attempts := e.attempts + [Attempt(n, AttemptStarted, None)])
  }

  // ---- one step of one thread ---------------------------------------------------------

  /** The state after thread `i` takes its next step, or None when it cannot take one. */
  function Step(c: Config, s: State, i: nat, ev: Event): (r: Option<State>)
    requires i < |s.threads|
  {
    var th := s.threads[i];
    if th.call != NoCall then (if ev == Tau then Some(EnqueueStep(c, s, i)) else None)
    else if th.pc.Closing? then (if ev == Tau then Some(CloseStep(s, i)) else None)
    else match th.role
      case MainThread => MainStep(c, s, i, ev)
      case SignalThread => SignalStep(s, i, ev)
      case Worker(t) => if s.Running() then WorkerStep(c, s, i, t, ev) else None
  }

  /** `enqueue`: count, send, and undo when the queue refuses. */
  function EnqueueStep(c: Config, s: State, i: nat): State
    requires i < |s.threads| && s.threads[i].call != NoCall
  {
    match s.threads[i].call
    case Marked(k) => s.(outstanding := Wrap(s.outstanding + 1)).InCall(i, Counted(k))
    case Counted(k) =>
      var t := if k in s.entries then s.entries[k].network.Carrier() else OverIp;
      (match s.queues.TrySend(t, k, c.maxAddresses)
       case Some(qs) => s.(queues := qs).InCall(i, NoCall)
       case None => s.InCall(i, Rejected(k)))
    case Rejected(k) =>
      (if k in s.entries then s.Put(k, s.entries[k].(state := BudgetDiscarded)) else s).InCall(i, Discarded(k))
    case Discarded(k) => s.(outstanding := Wrap(s.outstanding - 1)).InCall(i, NoCall)
  }

  function AfterClosing(role: Role): Pc {
    match role case MainThread => Spawned case SignalThread => SignalDone case Worker(_) => Idle
  }

  /** `close_all` closes one queue at a time. */
  function CloseStep(s: State, i: nat): State
    requires i < |s.threads| && s.threads[i].pc.Closing?
  {
    var todo := s.threads[i].pc.todo;
    if todo == [] then s.Go(i, AfterClosing(s.threads[i].role))
    else s.(queues := s.queues.Close(todo[0])).Go(i, Closing(todo[1..]))
  }

  /** Seeding, then the check at the head of `run` and the spawning of the pools. */
  function MainStep(c: Config, s: State, i: nat, ev: Event): Option<State>
    requires i < |s.threads|
  {
    match (s.threads[i].pc, ev)
    case (Seeding, Seed(k, network, now)) =>
      if c.filterSeeds && network !in c.enabled then Some(s)
      else
        var (entries, newlyQueued) := Observe(s.entries, c.maxAddresses, k, network, now);
        Some(if newlyQueued then s.(entries := entries).InCall(i, Marked(k)) else s.(entries := entries))
    case (Seeding, SeedsDone) =>
      Some(s.Go(i, if s.outstanding == 0 then Closing(ALL_TRANSPORTS) else Spawned))
    case _ => None
  }

  /** The first Ctrl+C: raise the flag, then close the queues. */
  function SignalStep(s: State, i: nat, ev: Event): Option<State>
    requires i < |s.threads|
  {
    match (s.threads[i].pc, ev)
    case (AwaitSignal, Interrupt) =>
      if s.Running() then Some(s.(shutdown := true).Go(i, Interrupted)) else None
    case (Interrupted, Tau) => Some(s.Go(i, Closing(ALL_TRANSPORTS)))
    case _ => None
  }

  /** `reserve_node_slot`: the count after a granted reservation. */
  function TryReserve(c: Config, processed: nat): Option<nat> {
    match c.maxNodes
    case None => Some(processed + 1)
    case Some(max) => if processed < max then Some(processed + 1) else None
  }

  function RetryOrFinish(c: Config, e: NodeEntry, key: AddrKey, mayRetry: bool, terminal: NodeState,
      kind: FailKind): Pc {
    if mayRetry && e.stats.handshakeAttempts < c.handshakeAttempts then Requeueing(key, terminal, kind)
    else Finishing(key, terminal, Some(kind))
  }

  function WorkerStep(c: Config, s: State, i: nat, t: Transport, ev: Event): Option<State>
    requires i < |s.threads|
  {
    match s.threads[i].pc
    case Idle => if ev == Tau || ev == Late then Receive(s, i, t, ev == Late) else None
    case Received(k) =>
      if ev != Tau then None
      else (match TryReserve(c, s.numProcessed)
        case Some(n) => Some(s.(numProcessed := n).Go(i, Reserved(k)))
        case None => Some(s.Go(i, Refused(k))))
    case Refused(k) =>
      if ev == Tau then Some(s.(nodeLimitReached := true).Go(i, Finishing(k, BudgetDiscarded, None))) else None
    case Finishing(k, terminal, reason) => if ev == Tau then Some(Finish(s, i, k, terminal, reason)) else None
    case Decrementing(k, refused) =>
      if ev != Tau then None
      else
        var s' := s.(outstanding := Wrap(s.outstanding - 1));
        Some(s'.Go(i,
          if s.outstanding == 1 then Closing(if refused then ALL_TRANSPORTS + ALL_TRANSPORTS else ALL_TRANSPORTS)
          else if refused then Closing(ALL_TRANSPORTS)
          else Idle))
    case Resending(k, terminal, kind) =>
      if ev != Tau then None
      else (match s.queues.TrySend(t, k, c.maxAddresses)
        case Some(qs) => Some(s.(queues := qs).Go(i, Idle))
        case None => Some(s.Go(i, Finishing(k, terminal, Some(kind)))))
    case Discovering(k) => Discover(c, s, i, ev)
    case _ => Process(c, s, i, ev)
  }

  /** The head of `worker_loop`: leave on shutdown, else take a key, else leave once closed and drained.
      A worker may have looked at the flag and begun to wait before it was raised; it is `late`, and takes
      what it waited for. */
  function Receive(s: State, i: nat, t: Transport, late: bool): Option<State>
    requires i < |s.threads|
  {
    var q := s.queues.At(t);
    if s.shutdown && !late then Some(s.Go(i, Exited))
    else if q.items != [] then
      Some(s.(queues := s.queues.With(t, q.(items := q.items[1..]))).Go(i, Received(q.items[0])))
    else if !q.open then Some(s.Go(i, Exited))
    else None
  }

  /** The entry half of `finish`; a refused item is followed by a second `close_all`. */
  function Finish(s: State, i: nat, k: AddrKey, terminal: NodeState, reason: Option<FailKind>): State
    requires i < |s.threads|
  {
    var refused := terminal == BudgetDiscarded;
    if k in s.entries && s.entries[k].Active() then
      s.Put(k, s.entries[k].(state := terminal, failure := reason)).Go(i, Decrementing(k, refused))
    else s.Go(i, if refused then Closing(ALL_TRANSPORTS) else Idle)
  }

  /** One connection attempt, from the reserved slot to the end of the handshake or the
      requeue: what becomes of the entry, and where the worker goes. */
  function Advance(c: Config, e: NodeEntry, pc: Pc, ev: Event): Option<(NodeEntry, Pc)> {
    match (pc, ev)
    case (Reserved(k), Tau) => Some((e.(state := Processing), Started(k)))
    case (Started(k), Tau) => Some((BeginAttempt(e), Connecting(k)))
    case (Connecting(k), NoLink(kind)) =>
      if IsConnectKind(kind)
      then Some((LastAttempt(e, AttemptConnectFailed, Some(kind)), ConnectLost(k, kind))) else None
    case (Connecting(k), Link(ms)) => Some((e.(stats := e.stats.(timeConnectMs := Some(ms))), Connected(k)))
    case (ConnectLost(k, kind), Tau) =>
      var terminal := if e.stats.timeConnectMs.Some? then HandshakeFailed else Unreachable;
      Some((e, RetryOrFinish(c, e, k, true, terminal, kind)))
    case (Connected(k), Tau) => Some((LastAttempt(e, AttemptConnected, None), SendingVersion(k)))
    case (SendingVersion(k), PeerFailed(kind)) =>
      if kind == VersionSendFailed
      then Some((LastAttempt(e, AttemptFailed, Some(kind)), HandshakeLost(k, false, kind))) else None
    case (SendingVersion(k), VersionWritten) => Some((LastAttempt(e, AttemptVersionSent, None), AwaitingPeer(k)))
    case (AwaitingPeer(k), PeerVersion(hd)) => Some((e.(handshake := Some(hd)), Discovering(k)))
    case (AwaitingPeer(k), PeerSilent) =>
      var kind := FailKind.HandshakeTimeout;
      Some((LastAttempt(e, AttemptTimedOut, Some(kind)), HandshakeLost(k, true, kind)))
    case (AwaitingPeer(k), PeerFailed(kind)) =>
      if IsHandshakeKind(kind)
      then Some((LastAttempt(e, AttemptFailed, Some(kind)), HandshakeLost(k, false, kind))) else None
    case (HandshakeLost(k, timedOut, kind), Tau) =>
      Some((e, RetryOrFinish(c, e, k, timedOut ==> c.retryOnTimeout, NodeState.HandshakeFailed, kind)))
    case (Collected(k), Tau) => Some((LastAttempt(e, AttemptComplete, None), Finishing(k, Reachable, None)))
    case (Requeueing(k, terminal, kind), Tau) => Some((e.(state := Queued), Resending(k, terminal, kind)))
    case _ => None
  }

  function Process(c: Config, s: State, i: nat, ev: Event): Option<State>
    requires i < |s.threads|
  {
    var pc := s.threads[i].pc;
    match KeyOf(pc)
    case None => None
    case Some(k) =>
      if k !in s.entries then None
      else
        match Advance(c, s.entries[k], pc, ev)
        case None => None
        case Some((e, next)) => Some(s.Put(k, e).Go(i, next))
  }

  /** What a discovering worker notes of its own peer: its messages, in any number and of any size, as they come, and in
      the end how the collection went. */
  function Note(c: Config, e: NodeEntry, k: AddrKey, ev: Event): Option<(NodeEntry, Pc)> {
    match ev
    case Tally(counted, declared, bad) =>
      if c.probeMode then None else Some((e.(stats := Tallied(e.stats, counted, declared, bad)), Discovering(k)))
    case GossipDone(outcome) =>
      Some((if c.probeMode then e else e.(stats := e.stats.(collectionOutcome := outcome)), Collected(k)))
    case _ => None
  }

  /** Peer discovery: any peer gossip about enabled networks, in any order and number. */
  function Discover(c: Config, s: State, i: nat, ev: Event): Option<State>
    requires i < |s.threads| && s.threads[i].pc.Discovering?
  {
    var k := s.threads[i].pc.key;
    if ev.Gossip? then
      if c.probeMode || ev.network !in c.enabled then None
      else
        var (entries, outcome) :=
          Upsert(s.entries, c.maxAddresses, ev.key, ev.ts, ev.network, c.freshnessThreshold, ev.now);
        Some(if outcome == Enqueue then s.(entries := entries).InCall(i, Marked(ev.key)) else s.(entries := entries))
    else if k !in s.entries then None
    else
      match Note(c, s.entries[k], k, ev)
      case None => None
      case Some((e, next)) => Some(s.Put(k, e).Go(i, next))
  }

  // ---- runs ---------------------------------------------------------------------------

  datatype Choice = Choice(thread: nat, event: Event)

  /** The state a schedule leads to; None when some choice was not possible. */
  function RunFrom(c: Config, start: State, schedule: seq<Choice>): Option<State> {
    if schedule == [] then Some(start)
    else
      var n := |schedule| - 1;
      match RunFrom(c, start, schedule[..n])
      case None => None
      case Some(s) =>
        if schedule[n].thread < |s.threads| then Step(c, s, schedule[n].thread, schedule[n].event) else None
  }

  /** `s` occurs in some run of the program. */
  ghost predicate Occurs(c: Config, s: State) {
    exists schedule :: RunFrom(c, Init(c), schedule) == Some(s)
  }
}
