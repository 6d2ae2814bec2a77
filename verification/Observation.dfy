/** How workers, the log's writer thread and the checkpoint task share the aggregates and the
    observation log (src/crawler.rs, src/addrlog.rs, src/main.rs), one small step at a time. */
module Observation {
  import opened Base
  import opened Network
  import opened NodeStore
  import opened AddrMessages
  import opened ObservationRecords

  datatype Config = Config(limit: nat, threshold: int, enabled: NetworkType -> bool)

  datatype Actor = Worker(i: nat) | Checkpointer

  datatype Command = Append(from: nat, record: Record) | Flush

  /** Where a worker is in recording an observation. All but `Idle` hold the read side of the barrier;
      `Numbered` and `Posted` also hold the event-id mutex. */
  datatype Thread =
    | Idle
    | Entered(task: Record)
    | Counted(task: Record)
    | Numbered(task: Record)
    | Posted(task: Record, reply: Option<bool>)
    | Feeding(todo: seq<AdvertisedAddr>, now: int)

  /** Where the checkpoint task is. From `Barred` to `Taken` it holds the write side of the barrier;
      `FlushReady` and `FlushPosted` also hold the event-id mutex. */
  datatype Checkpoint =
    | Resting
    | Barred
    | FlushReady
    | FlushPosted(answer: Option<Option<nat>>)
    | Copying(durable: nat, wanted: set<AddrKey>, snap: Entries)
    | Taken(durable: nat, snap: Entries)
    | Stopped

  /** `log` and `writeFailed` are history: the records written so far, and whether a write ever failed. */
  datatype State = State(
    entries: Entries, threads: seq<Thread>, checkpoint: Checkpoint, mutex: Option<Actor>, nextId: nat,
    channel: seq<Command>, durable: nat, written: string, synced: string,
    log: seq<Record>, writeFailed: bool)

  datatype Event =
    | Begin(i: nat, task: Record)
    | Count(i: nat)
    | Lock(i: nat)
    | Post(i: nat)
    | Write(ok: bool)
    | Acknowledge(i: nat)
    | Feed(i: nat, j: nat)
    | Leave(i: nat)
    | Elsewhere(entries: Entries)
    | Raise
    | FlushLock
    | FlushPost
    | FlushAcknowledge
    | Copy(key: AddrKey)
    | Snapped
    | Drop

  function Init(entries: Entries, workers: nat): State {
    State(entries, seq(workers, _ => Idle), Resting, None, 1, [], 0, "", "", [], false)
  }

  /** Nothing has been recorded about the seeds. */
  ghost predicate Unrecorded(entries: Entries) { forall k :: k in entries ==> Blank(entries[k]) }

  predicate Blank(e: NodeEntry) {
    e.stats.advertisedTotal == 0 && e.stats.malformedAddrMessages == 0 && e.stats.collectionOutcome == NotRequested
  }

  // ---- what a worker records --------------------------------------------------------------------------

  /** An observation about an address in the store: a message with its counts in order,
      a malformed one, or how the collection ended. */
  predicate Recordable(entries: Entries, task: Record) {
    task.responder in entries &&
    (task.Block? ==> task.message.declaredCount == |task.message.addrs| + task.message.unknownEntries) &&
    (task.RequestOutcome? ==> task.outcome != NotRequested)
  }

  /** The aggregates after an observation. */
  function Recorded(e: NodeEntry, task: Record): NodeEntry {
    match task
    case Block(_, _, _, _, _, message, _) =>
      e.(stats := e.stats.(advertisedTotal := e.stats.advertisedTotal + |message.addrs| + message.unknownEntries))
    case RequestOutcome(_, _, outcome) => e.(stats := e.stats.(collectionOutcome := outcome))
    case MalformedResponse(_, _, _, _, _) =>
      e.(stats := e.stats.(malformedAddrMessages := e.stats.malformedAddrMessages + 1))
  }

  function Enabled(cfg: Config, addrs: seq<AdvertisedAddr>): seq<AdvertisedAddr> {
    if addrs == [] then []
    else
      var n := |addrs| - 1;
      Enabled(cfg, addrs[..n]) + (if cfg.enabled(addrs[n].network) then [addrs[n]] else [])
  }

  function KeyOf(a: AdvertisedAddr): AddrKey { AddrKey(a.host, a.port) }

  /** What the rest of the crawler may do to the store meanwhile: anything but touch the three
      aggregates, lower a timestamp, remove an entry or exceed the address budget. */
  ghost predicate Benign(limit: nat, entries: Entries, entries': Entries) {
    entries.Keys <= entries'.Keys && (entries'.Keys == entries.Keys || |entries'.Keys| <= limit) &&
    (forall k :: k in entries ==>
      entries'[k].freshestTs >= entries[k].freshestTs &&
      entries'[k].stats.advertisedTotal == entries[k].stats.advertisedTotal &&
      entries'[k].stats.malformedAddrMessages == entries[k].stats.malformedAddrMessages &&
      entries'[k].stats.collectionOutcome == entries[k].stats.collectionOutcome) &&
    (forall k :: k in entries' && k !in entries ==> Blank(entries'[k]))
  }

  // ---- the steps ------------------------------------------------------------------------------------------

  function Put(s: State, i: nat, t: Thread): State
    requires i < |s.threads|
  { s.(threads := s.threads[i := t]) }

  ghost predicate NoReaders(s: State) { forall i :: 0 <= i < |s.threads| ==> s.threads[i].Idle? }

  predicate BarrierRaised(c: Checkpoint) { !c.Resting? && !c.Stopped? }

  ghost function Step(cfg: Config, s: State, e: Event): Option<State> {
    match e
    case Elsewhere(entries) => if Benign(cfg.limit, s.entries, entries) then Some(s.(entries := entries)) else None
    case Write(ok) => WriterStep(s, ok)
    case Begin(_, _) => WorkerStep(cfg, s, e, e.i)
    case Count(i) => WorkerStep(cfg, s, e, i)
    case Lock(i) => WorkerStep(cfg, s, e, i)
    case Post(i) => WorkerStep(cfg, s, e, i)
    case Acknowledge(i) => WorkerStep(cfg, s, e, i)
    case Feed(_, _) => WorkerStep(cfg, s, e, e.i)
    case Leave(i) => WorkerStep(cfg, s, e, i)
    case _ => CheckpointStep(s, e)
  }

  ghost function WorkerStep(cfg: Config, s: State, e: Event, i: nat): Option<State> {
    if i >= |s.threads| then None
    else
      match (e, s.threads[i])
      case (Begin(_, task), Idle) =>
        if !BarrierRaised(s.checkpoint) && Recordable(s.entries, task) then Some(Put(s, i, Entered(task))) else None
      case (Count(_), Entered(task)) =>
        var entries := if task.responder in s.entries
                       then s.entries[task.responder := Recorded(s.entries[task.responder], task)]
                       else s.entries;
        Some(Put(s, i, Counted(task)).(entries := entries))
      case (Lock(_), Counted(task)) =>
        if s.mutex == None then
          Some(Put(s, i, Numbered(task.(id := s.nextId))).(mutex := Some(Worker(i)), nextId := s.nextId + 1))
        else None
      case (Post(_), Numbered(task)) => Some(Put(s, i, Posted(task, None)).(channel := s.channel + [Append(i, task)]))
      case (Acknowledge(_), Posted(task, Some(ok))) =>
        var next := if ok && task.Block? then Feeding(Enabled(cfg, task.message.addrs), task.receivedAt) else Idle;
        Some(Put(s, i, next).(mutex := None))
      case (Feed(_, j), Feeding(todo, now)) =>
        if j < |todo| then
          var a := todo[j];
          var (entries, _) := Upsert(s.entries, cfg.limit, KeyOf(a), a.timestamp, a.network, cfg.threshold, now);
          Some(Put(s, i, Feeding(todo[..j] + todo[j + 1..], now)).(entries := entries))
        else None
      case (Leave(_), Feeding(todo, _)) => if todo == [] then Some(Put(s, i, Idle)) else None
      case _ => None
  }

  /** The writer thread takes one command off the channel. */
  ghost function WriterStep(s: State, ok: bool): Option<State> {
    if s.channel == [] then None
    else
      var s' := s.(channel := s.channel[1..]);
      match s.channel[0]
      case Append(i, record) =>
        if i >= |s.threads| || !s.threads[i].Posted? then None
        else
          var answered := Put(s', i, Posted(s.threads[i].task, Some(ok)));
          if ok then
            Some(answered.(written := s.written + Written(record), durable := record.id, log := s.log + [record]))
          else Some(answered.(writeFailed := true))
      case Flush =>
        if ok then Some(s'.(synced := s.written, checkpoint := FlushPosted(Some(Some(s.durable)))))
        else Some(s'.(checkpoint := FlushPosted(Some(None))))
  }

  ghost function CheckpointStep(s: State, e: Event): Option<State> {
    match (e, s.checkpoint)
    case (Raise, Resting) => if NoReaders(s) then Some(s.(checkpoint := Barred)) else None
    case (FlushLock, Barred) =>
      if s.mutex == None then Some(s.(checkpoint := FlushReady, mutex := Some(Checkpointer))) else None
    case (FlushPost, FlushReady) => Some(s.(checkpoint := FlushPosted(None), channel := s.channel + [Flush]))
    case (FlushAcknowledge, FlushPosted(Some(None))) => Some(s.(checkpoint := Stopped, mutex := None))
    case (FlushAcknowledge, FlushPosted(Some(Some(d)))) =>
      Some(s.(checkpoint := Copying(d, s.entries.Keys, map[]), mutex := None))
    case (Copy(key), Copying(d, wanted, snap)) =>
      if key in s.entries then Some(s.(checkpoint := Copying(d, wanted, snap[key := s.entries[key]]))) else None
    case (Snapped, Copying(d, wanted, snap)) =>
      if wanted <= snap.Keys then Some(s.(checkpoint := Taken(d, snap))) else None
    case (Drop, Taken(_, _)) => Some(s.(checkpoint := Resting))
    case _ => None
  }

  /** A run: `events` one after another. */
  ghost function RunFrom(cfg: Config, s: State, events: seq<Event>): Option<State>
    decreases |events|
  {
    if events == [] then Some(s)
    else
      match RunFrom(cfg, s, events[..|events| - 1])
      case None => None
      case Some(before) => Step(cfg, before, events[|events| - 1])
  }

  // ---- the writer thread's own state ----------------------------------------------------------------------

  /** The writer of the log: what it has written, what of that is on stable storage, and the last event written.
      A failed flush leaves what is known to be stored as it was. */
  class LogWriter {
    var written: string
    var synced: string
    var durableEventId: nat

    ghost predicate Matches(s: State)
      reads this
    { written == s.written && synced == s.synced && durableEventId == s.durable }

    constructor ()
      ensures forall entries, workers :: Matches(Init(entries, workers))
    {
      written, synced, durableEventId := "", "", 0;
    }

    /** An append command, whose write succeeds or not; the answer goes back to the worker that waits for it. */
    method Append(record: Record, ok: bool, ghost s: State) returns (reply: Option<nat>)
      requires Matches(s) && WriterStep(s, ok).Some? && s.channel[0].Append? && s.channel[0].record == record
      modifies this
      ensures Matches(WriterStep(s, ok).value)
      ensures WriterStep(s, ok).value.threads[s.channel[0].from].reply == Some(reply.Some?)
      ensures reply == if ok then Some(record.id) else None
    {
      hide Written;
      if !ok { return None; }
      var bytes := WriteRecord(record);
      written := written + bytes;
      durableEventId := record.id;
      return Some(record.id);
    }

    /** A flush command; the answer is the watermark the checkpoint records. */
    method Flush(ok: bool, ghost s: State) returns (reply: Option<nat>)
      requires Matches(s) && WriterStep(s, ok).Some? && s.channel[0].Flush?
      modifies this
      ensures Matches(WriterStep(s, ok).value)
      ensures WriterStep(s, ok).value.checkpoint == FlushPosted(Some(reply))
    {
      if !ok { return None; }
      synced := written;
      return Some(durableEventId);
    }
  }
}
