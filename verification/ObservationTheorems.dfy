/** At every checkpoint the snapshot and the synced log tell the same story. */
module ObservationTheorems {
  import opened Base
  import opened Network
  import opened NodeStore
  import opened ObservationRecords
  import opened Observation
  import opened ObservationInvariant
  import opened ObservationAggregates
  import opened Tally

  /** An entry's aggregates are exactly what the log says of its address. */
  ghost predicate Agrees(cfg: Config, e: NodeEntry, k: AddrKey, log: seq<Record>) {
    e.stats.advertisedTotal == Total(log, RecordAdds(Advertised, k)) &&
    e.stats.malformedAddrMessages == Total(log, RecordAdds(Malformed, k)) &&
    (e.stats.collectionOutcome != NotRequested ==> Logged(log, k, e.stats.collectionOutcome)) &&
    (forall o :: Logged(log, k, o) ==> e.stats.collectionOutcome != NotRequested) &&
    (forall j, a :: 0 <= j < |log| && Advertises(cfg, log[j], a) && KeyOf(a) == k ==> e.freshestTs >= a.timestamp)
  }

  /** Every address the log is about is among `keys`; so is every enabled one it advertises, while there was room. */
  ghost predicate Covers(cfg: Config, keys: set<AddrKey>, log: seq<Record>) {
    (forall j :: 0 <= j < |log| ==> log[j].responder in keys) &&
    (forall j, a :: 0 <= j < |log| && Advertises(cfg, log[j], a) ==> KeyOf(a) in keys || |keys| >= cfg.limit)
  }

  ghost predicate SnapExact(cfg: Config, s: State) {
    match s.checkpoint
    case Copying(_, wanted, snap) =>
      wanted <= s.entries.Keys && Covers(cfg, wanted, s.log) && forall k :: k in snap ==> Agrees(cfg, snap[k], k, s.log)
    case Taken(_, snap) =>
      Covers(cfg, snap.Keys, s.log) && forall k :: k in snap ==> Agrees(cfg, snap[k], k, s.log)
    case _ => true
  }

  /** What holds of the aggregates as long as no write has failed. */
  ghost predicate Matched(cfg: Config, s: State) {
    (forall f, k :: Balanced(s, f, k)) && (forall k :: OutcomesMatch(s, k)) && (forall a :: Frontiered(cfg, s, a))
  }

  ghost predicate Inv(cfg: Config, s: State) {
    Locks(s) && Sound(s) && (!s.writeFailed ==> Numbering(s) && Matched(cfg, s) && SnapExact(cfg, s))
  }

  // ---- the invariant is kept ------------------------------------------------------------------------------

  lemma InitInv(cfg: Config, entries: Entries, workers: nat)
    requires Unrecorded(entries)
    ensures Inv(cfg, Init(entries, workers))
  {
    var s := Init(entries, workers);
    forall f, k ensures Balanced(s, f, k) {
      TotalZero(s.threads, ThreadAdds(f, k));
    }
  }

  lemma WorkerInv(cfg: Config, s: State, e: Event, i: nat, s': State)
    requires Inv(cfg, s) && WorkerStep(cfg, s, e, i) == Some(s')
    ensures Inv(cfg, s')
  {
    WorkerShape(cfg, s, e, i, s');
    hide WorkerStep, Locks, Sound, Numbering, Balanced, OutcomesMatch, Frontiered, Agrees, Covers;
    WorkerLocks(cfg, s, e, i, s');
    WorkerSound(cfg, s, e, i, s');
    if !s'.writeFailed {
      WorkerNumbering(cfg, s, e, i, s');
      forall f, k ensures Balanced(s', f, k) {
        WorkerBalanced(cfg, s, e, i, s', f, k);
      }
      forall k ensures OutcomesMatch(s', k) {
        WorkerOutcomes(cfg, s, e, i, s', k);
      }
      forall a ensures Frontiered(cfg, s', a) {
        WorkerFrontier(cfg, s, e, i, s', a);
      }
    }
  }

  lemma WorkerShape(cfg: Config, s: State, e: Event, i: nat, s': State)
    requires WorkerStep(cfg, s, e, i) == Some(s')
    ensures s'.writeFailed == s.writeFailed && s'.log == s.log && s'.checkpoint == s.checkpoint
  {
    hide Upsert, Enabled, Recorded, Recordable;
  }

  lemma WriterInv(cfg: Config, s: State, ok: bool, s': State)
    requires Inv(cfg, s) && WriterStep(s, ok) == Some(s')
    ensures Inv(cfg, s')
  {
    WriterShape(s, ok, s');
    hide WriterStep, Locks, Sound, Numbering, Balanced, OutcomesMatch, Frontiered, Agrees, Covers;
    WriterLocks(s, ok, s');
    WriterSound(s, ok, s');
    if !s'.writeFailed {
      WriterNumbering(s, ok, s');
      forall f, k ensures Balanced(s', f, k) {
        WriterBalanced(s, ok, s', f, k);
      }
      forall k ensures OutcomesMatch(s', k) {
        WriterOutcomes(s, ok, s', k);
      }
      forall a ensures Frontiered(cfg, s', a) {
        WriterFrontier(cfg, s, ok, s', a);
      }
    }
  }

  /** While a snapshot is being copied nothing is logged. */
  lemma WriterShape(s: State, ok: bool, s': State)
    requires Locks(s) && WriterStep(s, ok) == Some(s')
    ensures s.writeFailed ==> s'.writeFailed
    ensures s'.entries == s.entries
    ensures s.channel[0].Append? ==> s'.checkpoint == s.checkpoint && !BarrierRaised(s.checkpoint)
    ensures s.channel[0].Flush? ==> s'.log == s.log && s'.checkpoint.FlushPosted?
  {
    hide Written;
  }

  lemma ElsewhereMatched(cfg: Config, s: State, s': State)
    requires Matched(cfg, s) && Benign(cfg.limit, s.entries, s'.entries) && s'.threads == s.threads && s'.log == s.log
    ensures Matched(cfg, s')
  {
    hide Total, Logged, OnItsWay, Owes, Advertises, Fed;
    forall f, k ensures Balanced(s', f, k) {
      assert Balanced(s, f, k);
      BenignHeld(cfg.limit, s.entries, s'.entries, f, k);
    }
    forall k ensures OutcomesMatch(s', k) {
      assert OutcomesMatch(s, k);
      assert OutcomeAt(s.entries, k) == OutcomeAt(s'.entries, k);
    }
    hide Benign;
    forall a ensures Frontiered(cfg, s', a) {
      assert Frontiered(cfg, s, a);
      if Fed(cfg, s.entries, a) {
        FedStays(cfg, s.entries, s'.entries, a);
      }
    }
  }

  lemma ElsewhereInv(cfg: Config, s: State, s': State)
    requires Inv(cfg, s) && Benign(cfg.limit, s.entries, s'.entries) && s' == s.(entries := s'.entries)
    ensures Inv(cfg, s')
  {
    hide Matched, Agrees, Covers, LogText;
    assert Sound(s');
    hide Sound;
    if !s'.writeFailed {
      ElsewhereMatched(cfg, s, s');
    }
  }

  /** With no worker inside, the store is exactly what the log says. */
  lemma QuietAgrees(cfg: Config, s: State, k: AddrKey)
    requires NoReaders(s) && Matched(cfg, s) && k in s.entries
    ensures Agrees(cfg, s.entries[k], k, s.log)
  {
    TotalZero(s.threads, ThreadAdds(Advertised, k));
    TotalZero(s.threads, ThreadAdds(Malformed, k));
    assert Balanced(s, Advertised, k) && Balanced(s, Malformed, k);
    assert OutcomesMatch(s, k);
    forall j, a | 0 <= j < |s.log| && Advertises(cfg, s.log[j], a) && KeyOf(a) == k
      ensures s.entries[k].freshestTs >= a.timestamp
    {
      assert Frontiered(cfg, s, a);
    }
  }

  lemma QuietCovers(cfg: Config, s: State)
    requires NoReaders(s) && Sound(s) && Matched(cfg, s)
    ensures Covers(cfg, s.entries.Keys, s.log)
  {
    assert |s.entries| == |s.entries.Keys|;
    forall j, a | 0 <= j < |s.log| && Advertises(cfg, s.log[j], a)
      ensures KeyOf(a) in s.entries.Keys || |s.entries.Keys| >= cfg.limit
    {
      assert Frontiered(cfg, s, a);
    }
  }

  lemma CoversMore(cfg: Config, keys: set<AddrKey>, more: set<AddrKey>, log: seq<Record>)
    requires Covers(cfg, keys, log) && keys <= more
    ensures Covers(cfg, more, log)
  {
    SubsetSize(keys, more);
  }

  lemma CheckpointInv(cfg: Config, s: State, e: Event, s': State)
    requires Inv(cfg, s) && CheckpointStep(s, e) == Some(s')
    ensures Inv(cfg, s')
  {
    CheckpointLocks(s, e, s');
    hide Locks;
    CheckpointShape(cfg, s, e, s');
    if !s'.writeFailed {
      CheckpointNumbering(s, e, s');
      hide Numbering;
      SameMatched(cfg, s, s');
      CheckpointSnap(cfg, s, e, s');
    }
  }

  lemma CheckpointShape(cfg: Config, s: State, e: Event, s': State)
    requires Sound(s) && CheckpointStep(s, e) == Some(s')
    ensures s'.writeFailed == s.writeFailed && s'.log == s.log && s'.entries == s.entries && s'.threads == s.threads
    ensures Sound(s')
  {}

  lemma SameMatched(cfg: Config, s: State, s': State)
    requires s'.log == s.log && s'.entries == s.entries && s'.threads == s.threads && Matched(cfg, s)
    ensures Matched(cfg, s')
  {
    hide Held, Total, Logged, OnItsWay, Fed, Owes, Advertises;
    forall f, k ensures Balanced(s', f, k) { assert Balanced(s, f, k); }
    forall k ensures OutcomesMatch(s', k) { assert OutcomesMatch(s, k); }
    forall a ensures Frontiered(cfg, s', a) { assert Frontiered(cfg, s, a); }
  }

  lemma CheckpointSnap(cfg: Config, s: State, e: Event, s': State)
    requires Locks(s) && Sound(s) && Matched(cfg, s) && SnapExact(cfg, s) && CheckpointStep(s, e) == Some(s')
    ensures SnapExact(cfg, s')
  {
    hide Agrees, Covers, Matched, Sound, MutexExact, ChannelExact;
    match e
    case FlushAcknowledge => QuietCovers(cfg, s);
    case Copy(key) => QuietAgrees(cfg, s, key);
    case Snapped => CoversMore(cfg, s.checkpoint.wanted, s.checkpoint.snap.Keys, s.log);
    case _ =>
  }

  lemma StepInv(cfg: Config, s: State, e: Event)
    requires Inv(cfg, s) && Step(cfg, s, e).Some?
    ensures Inv(cfg, Step(cfg, s, e).value)
  {
    hide Inv, WorkerStep, WriterStep, CheckpointStep, Benign;
    var s' := Step(cfg, s, e).value;
    match e
    case Elsewhere(entries) => ElsewhereInv(cfg, s, s');
    case Write(ok) => WriterInv(cfg, s, ok, s');
    case Begin(i, _) => WorkerInv(cfg, s, e, i, s');
    case Count(i) => WorkerInv(cfg, s, e, i, s');
    case Lock(i) => WorkerInv(cfg, s, e, i, s');
    case Post(i) => WorkerInv(cfg, s, e, i, s');
    case Acknowledge(i) => WorkerInv(cfg, s, e, i, s');
    case Feed(i, _) => WorkerInv(cfg, s, e, i, s');
    case Leave(i) => WorkerInv(cfg, s, e, i, s');
    case _ => CheckpointInv(cfg, s, e, s');
  }

  lemma {:induction false} RunInv(cfg: Config, s: State, events: seq<Event>)
    requires Inv(cfg, s) && RunFrom(cfg, s, events).Some?
    ensures Inv(cfg, RunFrom(cfg, s, events).value)
    decreases |events|
  {
    hide Inv, Step;
    if events != [] {
      RunInv(cfg, s, events[..|events| - 1]);
      StepInv(cfg, RunFrom(cfg, s, events[..|events| - 1]).value, events[|events| - 1]);
    }
  }

  // ---- the main results ---------------------------------------------------------------------------------------

  /** A snapshot taken while no write to the log has failed agrees with the synced file: the file holds exactly
      the records 1 to the watermark, in order, and for each address of the snapshot the number of addresses it
      advertised, the malformed messages it sent and whether its collection ended are what those records say;
      every enabled address they advertise is there, no older than advertised, unless the store was full. */
  lemma CheckpointAgrees(cfg: Config, entries: Entries, workers: nat, events: seq<Event>, s: State)
    requires Unrecorded(entries) && RunFrom(cfg, Init(entries, workers), events) == Some(s)
    requires s.checkpoint.Taken? && !s.writeFailed
    ensures s.checkpoint.durable == |s.log| && InOrder(s.log) && s.synced == LogText(s.log)
    ensures forall k :: k in s.checkpoint.snap ==> Agrees(cfg, s.checkpoint.snap[k], k, s.log)
    ensures Covers(cfg, s.checkpoint.snap.Keys, s.log)
  {
    hide RunFrom, Locks, Sound, Matched;
    InitInv(cfg, entries, workers);
    RunInv(cfg, Init(entries, workers), events);
  }

  /** Whatever else happens, at most one command waits for the writer, and no worker is recording
      anything while a checkpoint holds the barrier. */
  lemma BarrierExcludes(cfg: Config, entries: Entries, workers: nat, events: seq<Event>, s: State)
    requires Unrecorded(entries) && RunFrom(cfg, Init(entries, workers), events) == Some(s)
    ensures |s.channel| <= 1
    ensures BarrierRaised(s.checkpoint) ==> NoReaders(s)
    ensures forall i, j ::
              0 <= i < |s.threads| && 0 <= j < |s.threads| && HoldsMutex(s.threads[i]) && HoldsMutex(s.threads[j])
              ==> i == j
  {
    hide RunFrom, Sound, Matched;
    InitInv(cfg, entries, workers);
    RunInv(cfg, Init(entries, workers), events);
  }
}
